/** The ERP source: which invoices are posted on a date, and how a posting reaches the books. */
module Erp {
  import opened Wrappers
  import opened Ordering
  import opened OpsEvents

  /** An invoice as Ops hands it over; its amount is in cents. */
  datatype Invoice = Invoice(id: int, order: int, date: Date, company: string, currency: string, amount: int)

  /** The planned event; it carries the invoice it posts and the currency the company had then. */
  datatype Posting = Posting(date: Date, postingId: int, invoice: Invoice, companyCurrency: string, delay: nat)

  /** `breachWeekday` is the first byte of the hash that picks a week's breach date. */
  datatype Policy = Policy(
    eventId: Posting -> EventId,
    digest: int -> (Byte, Byte),
    invoiceToErp: DayWindow,
    delayedPosting: real,
    breachWeekday: int -> Byte)

  /* ---- Breach dates: dates are day numbers, day 1 being a Monday ---- */

  function Week(d: Date): int { (d - 1) / 7 }
  function Weekday(d: Date): int { (d - 1) % 7 + 1 }

  predicate Breach(p: Policy, d: Date) {
    Weekday(d) == p.breachWeekday(Week(d)) % 7 + 1
  }

  function BreachDate(p: Policy, week: int): (d: Date)
    ensures Week(d) == week && Breach(p, d)
  {
    7 * week + p.breachWeekday(week) % 7 + 1
  }

  /** Every week has exactly one breach date. */
  lemma OneBreachPerWeek(p: Policy, d: Date)
    ensures Breach(p, d) <==> d == BreachDate(p, Week(d))
  {
    assert d == 7 * Week(d) + Weekday(d);
  }

  /* ---- Planning ---- */

  function PostingDelay(p: Policy, inv: Invoice): (days: nat)
    ensures p.invoiceToErp.minimum <= days <= p.invoiceToErp.maximum + 1
  {
    var bytes := p.digest(inv.id);
    if Share(bytes.1) < p.delayedPosting then p.invoiceToErp.maximum + 1
    else InWindow(p.invoiceToErp, bytes.0)
  }

  function Due(p: Policy, inv: Invoice): Date { inv.date + PostingDelay(p, inv) }

  /** A breach date holds back what falls due on it, and only that. */
  predicate Publishes(p: Policy, d: Date, inv: Invoice) {
    Due(p, inv) <= d && !(Breach(p, d) && Due(p, inv) == d)
  }

  function InvoiceId(inv: Invoice): int { inv.id }

  predicate Eligible(p: Policy, d: Date, posted: set<int>, inv: Invoice) {
    inv.order !in posted && Publishes(p, d, inv)
  }

  function PostingFor(p: Policy, companies: map<string, string>, d: Date, inv: Invoice, postingId: int): Posting
    requires inv.company in companies
  {
    Posting(d, postingId, inv, companies[inv.company], PostingDelay(p, inv))
  }

  function MakePostings(p: Policy, companies: map<string, string>, d: Date, invoices: seq<Invoice>,
      next: int): (r: seq<Posting>)
    requires forall i :: 0 <= i < |invoices| ==> invoices[i].company in companies
    ensures |r| == |invoices|
    ensures forall i :: 0 <= i < |r| ==> r[i] == PostingFor(p, companies, d, invoices[i], next + i)
  {
    seq(|invoices|, i requires 0 <= i < |invoices| => PostingFor(p, companies, d, invoices[i], next + i))
  }

  ghost function EligibleListed(p: Policy, d: Date, visible: set<Invoice>, posted: set<int>): (r: seq<Invoice>)
    requires DistinctKeys(visible, InvoiceId)
    ensures StrictlySortedBy(r, InvoiceId)
    ensures Elements(r) == set inv | inv in visible && Eligible(p, d, posted, inv)
    ensures forall i :: 0 <= i < |r| ==> r[i] in visible && Eligible(p, d, posted, r[i])
  {
    var eligible := set inv | inv in visible && Eligible(p, d, posted, inv);
    SortedSetListsTheSet(eligible, InvoiceId);
    var r := SortedSet(eligible, InvoiceId);
    assert forall i :: 0 <= i < |r| ==> r[i] in Elements(r);
    r
  }

  ghost function PlanPostings(
    p: Policy, companies: map<string, string>, d: Date, visible: set<Invoice>, posted: set<int>,
        next: int): seq<Posting>
    requires DistinctKeys(visible, InvoiceId) && forall inv :: inv in visible ==> inv.company in companies
  {
    MakePostings(p, companies, d, EligibleListed(p, d, visible, posted), next)
  }

  /* ---- The books ---- */

  /** Company masters, and what the applier looks up: a revenue account, an active cost center, the
      latest rate of a currency to the dollar. */
  datatype Books = Books(
    companies: map<string, string>,
    hasAccount: bool,
    hasCostCenter: (string, Date) -> bool,
    rate: (string, Date) -> Option<real>)

  /** `document` is the invoice id in a document number the simulator made, absent in the seed's. */
  datatype PostingRow = PostingRow(
    order: int, company: string, document: Option<int>, postingDate: Date,
    amountDoc: real, currency: string, amountCompany: real, companyCurrency: string, postedOn: Date)

  datatype ErpDb = ErpDb(books: Books, postings: map<int, PostingRow>, markers: set<EventId>)

  datatype Error =
    PostingCollision | UnknownCompany | CurrencyChanged | NoAccountOrCostCenter | MissingRate
  | CheckViolation | DuplicateDocument

  /** Rounding to cents, halves away from zero. */
  function Quantize(x: real): real {
    if x >= 0.0 then ((x * 100.0 + 0.5).Floor as real) / 100.0
    else -(((-x * 100.0 + 0.5).Floor as real) / 100.0)
  }

  function UsdRate(books: Books, currency: string, date: Date): Option<real> {
    if currency == "USD" then Some(1.0) else books.rate(currency, date)
  }

  function InUnits(cents: int): real { cents as real / 100.0 }

  /** The amount in the company's currency, before it is rounded. */
  function Converted(books: Books, inv: Invoice, companyCurrency: string): Option<real> {
    if inv.currency == companyCurrency then Some(InUnits(inv.amount))
    else
      match UsdRate(books, inv.currency, inv.date)
      case None => None
      case Some(rate) =>
        var dollars := InUnits(inv.amount) * rate;
        if companyCurrency == "USD" then Some(dollars)
        else
          match books.rate(companyCurrency, inv.date)
          case None => None
          case Some(other) => if other == 0.0 then None else Some(dollars / other)
  }

  function CompanyAmount(books: Books, inv: Invoice, companyCurrency: string): Option<real> {
    match Converted(books, inv, companyCurrency)
    case None => None
    case Some(amount) => Some(Quantize(amount))
  }

  predicate HasDocument(postings: map<int, PostingRow>, company: string, id: int) {
    exists k :: k in postings && postings[k].company == company && postings[k].document == Some(id)
  }

  function RowOf(e: Posting, amount: real): PostingRow {
    PostingRow(e.invoice.order, e.invoice.company, Some(e.invoice.id), e.invoice.date,
      InUnits(e.invoice.amount), e.invoice.currency, amount, e.companyCurrency, e.date)
  }

  /** The table's checks on an invoice row: positive in both currencies, and not posted before its date. */
  predicate RowAllowed(row: PostingRow) {
    row.amountDoc > 0.0 && row.amountCompany > 0.0 && row.postedOn >= row.postingDate
  }

  function ApplyPosting(db: ErpDb, e: Posting): (r: Result<ErpDb, Error>)
    ensures r.Ok? ==> r.value.markers == db.markers
  {
    if e.postingId in db.postings then
      if db.postings[e.postingId].order != e.invoice.order then Err(PostingCollision) else Ok(db)
    else if e.invoice.company !in db.books.companies then Err(UnknownCompany)
    else if db.books.companies[e.invoice.company] != e.companyCurrency then Err(CurrencyChanged)
    else if !db.books.hasAccount || !db.books.hasCostCenter(e.invoice.company, e.invoice.date) then
      Err(NoAccountOrCostCenter)
    else
      match CompanyAmount(db.books, e.invoice, e.companyCurrency)
      case None => Err(MissingRate)
      case Some(amount) =>
        if !RowAllowed(RowOf(e, amount)) then Err(CheckViolation)
        else if HasDocument(db.postings, e.invoice.company, e.invoice.id) then Err(DuplicateDocument)
        else Ok(db.(postings := db.postings[e.postingId := RowOf(e, amount)]))
  }

  function ApplyOne(p: Policy, db: ErpDb, e: Posting): Result<ErpDb, Error> {
    if p.eventId(e) in db.markers then Ok(db)
    else
      match ApplyPosting(db, e)
      case Err(error) => Err(error)
      case Ok(after) => Ok(after.(markers := after.markers + {p.eventId(e)}))
  }

  function ApplyAll(p: Policy, db: ErpDb, events: seq<Posting>): Result<ErpDb, Error>
    decreases |events|
  {
    if |events| == 0 then Ok(db)
    else
      match ApplyOne(p, db, events[0])
      case Err(error) => Err(error)
      case Ok(after) => ApplyAll(p, after, events[1..])
  }

  /* ---- Snapshot reads ---- */

  function ReadPosted(db: ErpDb, orders: set<int>): set<int> {
    set k | k in db.postings && db.postings[k].order in orders :: db.postings[k].order
  }

  function OrderRefs(invoices: set<Invoice>): set<int> {
    set inv | inv in invoices :: inv.order
  }
}
