/** What a posted row says: each column against the invoice, and the amount in the company's currency
    against the exchange rates of the invoice's date. */
module ErpAmounts {
  import opened Wrappers
  import opened OpsEvents
  import opened Erp
  import ErpLedger

  /** `r` is what one unit of `currency` was worth in dollars. */
  predicate IsRate(books: Books, currency: string, date: Date, r: real) {
    if currency == "USD" then r == 1.0 else books.rate(currency, date) == Some(r)
  }

  predicate WholeCents(x: real) { (x * 100.0).Floor as real == x * 100.0 }

  function Size(x: real): real { if x < 0.0 then -x else x }

  /** Exact to half a cent, a tie going away from zero. */
  predicate IsRounded(exact: real, rounded: real) {
    && WholeCents(rounded) && Size(rounded - exact) <= 0.005
    && (Size(rounded - exact) == 0.005 ==> Size(rounded) > Size(exact))
  }

  lemma QuantizeRounds(x: real)
    ensures IsRounded(x, Quantize(x))
  {
    var y := Size(x);
    var n := (y * 100.0 + 0.5).Floor;
    assert n as real <= y * 100.0 + 0.5 < n as real + 1.0;
    assert Quantize(x) * 100.0 == if x >= 0.0 then n as real else -n as real;
  }

  lemma CentsAreKept(cents: int)
    ensures Quantize(InUnits(cents)) == InUnits(cents)
  {
    var x := InUnits(cents);
    if cents >= 0 {
      assert x * 100.0 + 0.5 == cents as real + 0.5;
      HalfIsDropped(cents);
    } else {
      assert -x * 100.0 + 0.5 == (-cents) as real + 0.5;
      HalfIsDropped(-cents);
    }
  }

  lemma HalfIsDropped(n: int)
    ensures (n as real + 0.5).Floor == n
  {
  }

  /** Both amounts are worth the same, up to half a cent of the company's currency. */
  predicate WorthTheSame(amountDoc: real, rate: real, amountCompany: real, companyRate: real) {
    companyRate != 0.0 && Size(amountCompany * companyRate - amountDoc * rate) <= 0.005 * Size(companyRate)
  }

  ghost predicate IsConverted(books: Books, row: PostingRow) {
    if row.currency == row.companyCurrency then row.amountCompany == row.amountDoc
    else
      exists rate, companyRate ::
        && IsRate(books, row.currency, row.postingDate, rate)
        && IsRate(books, row.companyCurrency, row.postingDate, companyRate)
        && WorthTheSame(row.amountDoc, rate, row.amountCompany, companyRate)
  }

  /** The row of a posting, column by column. */
  ghost predicate Records(books: Books, e: Posting, row: PostingRow) {
    && row.order == e.invoice.order && row.company == e.invoice.company && row.document == Some(e.invoice.id)
    && row.postingDate == e.invoice.date && row.postedOn == e.date
    && row.amountDoc * 100.0 == e.invoice.amount as real && row.currency == e.invoice.currency
    && row.companyCurrency == e.companyCurrency
    && WholeCents(row.amountCompany) && IsConverted(books, row)
  }

  lemma ScaledDifference(a: real, b: real, scale: real)
    requires Size(a - b) <= 0.005
    ensures Size(a * scale - b * scale) <= 0.005 * Size(scale)
  {
    var difference, size := a - b, Size(scale);
    Product(difference, 0.005, size);
    Product(-difference, 0.005, size);
    assert a * scale - b * scale == difference * scale;
    assert difference * size == if scale < 0.0 then -(difference * scale) else difference * scale;
    assert -difference * size == -(difference * size);
    assert difference * size <= 0.005 * size;
    assert -(difference * size) <= 0.005 * size;
    assert Size(difference * scale) <= 0.005 * size;
  }

  /** `p` and `q` are `a` and `b` scaled. */
  lemma ScaledBoth(a: real, b: real, scale: real, p: real, q: real)
    requires Size(a - b) <= 0.005 && p == a * scale && q == b * scale
    ensures Size(p - q) <= 0.005 * Size(scale)
  {
    ScaledDifference(a, b, scale);
  }

  lemma Product(x: real, bound: real, scale: real)
    requires x <= bound && scale >= 0.0
    ensures x * scale <= bound * scale
  {
  }

  lemma ConvertedIsWorthTheSame(amount: real, rate: real, companyRate: real, x: real)
    requires companyRate != 0.0 && x * companyRate == amount * rate
    ensures WorthTheSame(amount, rate, Quantize(x), companyRate)
  {
    hide Quantize;
    QuantizeRounds(x);
    ScaledBoth(Quantize(x), x, companyRate, Quantize(x) * companyRate, amount * rate);
  }

  lemma RowRecords(books: Books, e: Posting)
    requires CompanyAmount(books, e.invoice, e.companyCurrency).Some?
    ensures Records(books, e, RowOf(e, CompanyAmount(books, e.invoice, e.companyCurrency).value))
  {
    hide Quantize, WorthTheSame, WholeCents;
    var inv, currency := e.invoice, e.companyCurrency;
    var amount, x := InUnits(inv.amount), Converted(books, inv, currency).value;
    QuantizeRounds(x);
    if inv.currency == currency {
      CentsAreKept(inv.amount);
    } else {
      hide Converted;
      ConvertsBy(books, inv, currency);
      var rate, companyRate := UsdRate(books, inv.currency, inv.date).value, UsdRate(books, currency, inv.date).value;
      ConvertedIsWorthTheSame(amount, rate, companyRate, x);
      assert IsRate(books, inv.currency, inv.date, rate) && IsRate(books, currency, inv.date, companyRate);
    }
    UnitsHold(e.invoice.amount);
  }

  lemma UnitsHold(cents: int)
    ensures InUnits(cents) * 100.0 == cents as real
  {
  }

  lemma ConvertsBy(books: Books, inv: Invoice, currency: string)
    requires inv.currency != currency && Converted(books, inv, currency).Some?
    ensures var rate, companyRate := UsdRate(books, inv.currency, inv.date), UsdRate(books, currency, inv.date);
      && rate.Some? && companyRate.Some? && companyRate.value != 0.0
      && Converted(books, inv, currency).value * companyRate.value == InUnits(inv.amount) * rate.value
  {
  }

  /** The handler adds such a row, or changes nothing. */
  lemma PostingAddsItsRow(db: ErpDb, e: Posting)
    requires ApplyPosting(db, e).Ok?
    ensures var after := ApplyPosting(db, e).value;
      if e.postingId in db.postings then after == db
      else
        && after.postings.Keys == db.postings.Keys + {e.postingId}
        && (forall k :: k in db.postings ==> after.postings[k] == db.postings[k])
        && Records(db.books, e, after.postings[e.postingId]) && after.books == db.books
  {
    if e.postingId !in db.postings { RowRecords(db.books, e); }
    hide Records;
  }

  /** So in the books of any ledger every posting has a row that records it. */
  lemma EveryPostingIsRecorded(s: ErpLedger.Setting, l: set<Posting>, db: ErpDb, e: Posting)
    requires ErpLedger.Posted(s, l, db) && e in l
    ensures e.postingId in db.postings && Records(s.base.books, e, db.postings[e.postingId])
  {
    assert ErpLedger.RowPosted(db, e);
    RowRecords(db.books, e);
  }
}
