/** Inferring lifecycle history from current rows whose fields mix dates and timestamps.

    Comparing a date with a timestamp compares days only, so "not before" is not transitive; the
    clamp is right all the same, and `NotBeforeSurvivesReplacement` is why. */
module HistoryInference {
  import opened Wrappers

  const DAY: int := 86_400_000_000

  /** A date, or a timestamp with its microsecond of the day. */
  datatype Stamp = Day(day: int) | Moment(day: int, tick: int)

  /** A source field: null, a value that is no date, or a date or timestamp. */
  datatype Field = Absent | Other | At(stamp: Stamp)

  function BusinessDay(s: Stamp): int { s.day }

  predicate NotBefore(later: Stamp, earlier: Stamp) {
    if later.Moment? && earlier.Moment? then
      later.day > earlier.day || (later.day == earlier.day && later.tick >= earlier.tick)
    else BusinessDay(later) >= BusinessDay(earlier)
  }

  /** Nine is not before its own date and the date is not before noon, yet nine is before noon. */
  lemma NotBeforeIsNotTransitive(d: int)
    ensures NotBefore(Moment(d, 9 * DAY / 24), Day(d)) && NotBefore(Day(d), Moment(d, 12 * DAY / 24))
    ensures !NotBefore(Moment(d, 9 * DAY / 24), Moment(d, 12 * DAY / 24))
  {
  }

  /** Two comparisons chain except in one case: a timestamp, a date and a later timestamp of one day. */
  lemma NotBeforeChainsExactly(a: Stamp, b: Stamp, c: Stamp)
    requires NotBefore(a, b) && NotBefore(b, c)
    ensures NotBefore(a, c) <==> !(a.Moment? && b.Day? && c.Moment? && a.day == c.day && a.tick < c.tick)
  {
  }

  /** A later floor that replaces a value is not before any floor the value had passed. */
  lemma NotBeforeSurvivesReplacement(value: Stamp, passed: Stamp, floor: Stamp)
    requires NotBefore(value, passed) && !NotBefore(value, floor)
    ensures NotBefore(floor, passed) && NotBefore(floor, floor)
  {
  }

  function Clamp(value: Stamp, floors: seq<Stamp>): Stamp {
    if |floors| == 0 then value
    else
      var before := Clamp(value, floors[..|floors| - 1]);
      if NotBefore(before, floors[|floors| - 1]) then before else floors[|floors| - 1]
  }

  method ClampNotBefore(value: Stamp, floors: seq<Stamp>) returns (clamped: Stamp)
    ensures clamped == Clamp(value, floors)
  {
    clamped := value;
    for i := 0 to |floors|
      invariant clamped == Clamp(value, floors[..i])
    {
      assert floors[..i + 1][..i] == floors[..i];
      if !NotBefore(clamped, floors[i]) { clamped := floors[i]; }
    }
    assert floors[..|floors|] == floors;
  }

  /** Whatever the mix of dates and timestamps, the clamped value is before none of the floors; it is
      the value itself exactly when that already was. */
  lemma {:induction false} ClampIsNotBeforeAnyFloor(value: Stamp, floors: seq<Stamp>)
    ensures forall i :: 0 <= i < |floors| ==> NotBefore(Clamp(value, floors), floors[i])
    ensures (forall i :: 0 <= i < |floors| ==> NotBefore(value, floors[i])) ==> Clamp(value, floors) == value
    ensures Clamp(value, floors) == value || exists i :: 0 <= i < |floors| && Clamp(value, floors) == floors[i]
  {
    if |floors| > 0 {
      var rest, last := floors[..|floors| - 1], floors[|floors| - 1];
      ClampIsNotBeforeAnyFloor(value, rest);
      var before := Clamp(value, rest);
      forall i | 0 <= i < |floors| ensures NotBefore(Clamp(value, floors), floors[i]) {
        if i < |rest| {
          assert floors[i] == rest[i];
          if !NotBefore(before, last) { NotBeforeSurvivesReplacement(before, rest[i], last); }
        }
      }
      if before != value {
        var i :| 0 <= i < |rest| && before == rest[i];
        assert floors[i] == rest[i];
      }
    }
  }

  /* ---- Events ---- */

  datatype Sla = OnTime | Breached

  datatype InferredEvent = InferredEvent(previous: string, next: string, at: Stamp, due: Option<Stamp>, sla: Sla)

  const NONE := ""

  function SlaStatus(at: Stamp, due: Option<Stamp>): Sla {
    if due.Some? && BusinessDay(at) > BusinessDay(due.value) then Breached else OnTime
  }

  datatype Inference = Inference(events: seq<InferredEvent>, invalid: bool)

  function DueAt(f: Field): Option<Stamp> { if f.At? then Some(f.stamp) else None }

  datatype OrderRow = OrderRow(status: string, created: Field, due: Field, ship: Field, invoice: Field, updated: Field)

  /** When the order shipped, if its status or a shipment proves that it did. */
  function ShippedAt(row: OrderRow, created: Stamp): Option<Stamp> {
    if row.status == "SHIPPED" || row.status == "INVOICED" || (row.status == "CANCELLED" && row.ship.At?) then
      Some(if row.ship.At? && NotBefore(row.ship.stamp, created) then row.ship.stamp else created)
    else None
  }

  function InferOrder(row: OrderRow): Inference {
    if !row.created.At? then Inference([], true)
    else
      var created := row.created.stamp;
      var due := DueAt(row.due);
      var pending := InferredEvent(NONE, "PENDING", created, due, OnTime);
      match ShippedAt(row, created)
      case None =>
        if row.status == "CANCELLED" then
          if !row.updated.At? then Inference([pending], true)
          else Inference([pending, InferredEvent("PENDING", "CANCELLED",
              Clamp(row.updated.stamp, [created, created]), None, OnTime)], false)
        else Inference([pending], false)
      case Some(shipped) =>
        var sent := InferredEvent("PENDING", "SHIPPED", shipped, due, SlaStatus(shipped, due));
        if row.status == "INVOICED" then
          var candidate :=
            if row.invoice.At? && NotBefore(row.invoice.stamp, shipped) then row.invoice else row.updated;
          if !candidate.At? then Inference([pending, sent], true)
          else
            var invoiced := Clamp(candidate.stamp, [shipped, created]);
            var invoiceDue := Some(Day(BusinessDay(shipped) + 3));
            Inference([pending, sent, InferredEvent("SHIPPED", "INVOICED", invoiced, invoiceDue,
                SlaStatus(invoiced, invoiceDue))], false)
        else if row.status == "CANCELLED" then
          if !row.updated.At? then Inference([pending, sent], true)
          else Inference([pending, sent, InferredEvent("SHIPPED", "CANCELLED",
              Clamp(row.updated.stamp, [shipped, created]), None, OnTime)], false)
        else Inference([pending, sent], false)
  }

  /** Each event follows from the one before it, from nothing on, by a transition of the lifecycle. */
  predicate Chained(events: seq<InferredEvent>, legal: (string, string) -> bool) {
    && (|events| > 0 ==> events[0].previous == NONE)
    && (forall i :: 0 < i < |events| ==> events[i].previous == events[i - 1].next)
    && (forall i :: 0 <= i < |events| ==> legal(events[i].previous, events[i].next))
  }

  /** No event is before any event before it. */
  predicate Ordered(events: seq<InferredEvent>) {
    forall i, j :: 0 <= i < j < |events| ==> NotBefore(events[j].at, events[i].at)
  }

  predicate OrderMove(previous: string, next: string) {
    || (previous == NONE && next == "PENDING")
    || (previous == "PENDING" && (next == "SHIPPED" || next == "CANCELLED"))
    || (previous == "SHIPPED" && (next == "INVOICED" || next == "CANCELLED"))
  }

  predicate KnownOrderStatus(s: string) {
    s == "PENDING" || s == "SHIPPED" || s == "INVOICED" || s == "CANCELLED"
  }

  /** Valid or not, what is inferred of an order is a legal chain in time order; when it is valid, the
      chain ends in the order's status exactly when that is a status of the lifecycle. */
  lemma OrderHistoryIsSound(row: OrderRow)
    ensures var r := InferOrder(row);
      && Chained(r.events, OrderMove) && Ordered(r.events)
      && (!r.invalid ==> |r.events| > 0)
      && (!r.invalid ==> (r.events[|r.events| - 1].next == row.status <==> KnownOrderStatus(row.status)))
  {
    if row.created.At? {
      var created := row.created.stamp;
      var shipped := ShippedAt(row, created);
      if shipped.Some? {
        assert NotBefore(shipped.value, created);
        if row.invoice.At? { ClampIsNotBeforeAnyFloor(row.invoice.stamp, [shipped.value, created]); }
        if row.updated.At? { ClampIsNotBeforeAnyFloor(row.updated.stamp, [shipped.value, created]); }
        AtBoth(shipped.value, created);
      } else if row.updated.At? {
        ClampIsNotBeforeAnyFloor(row.updated.stamp, [created, created]);
        AtBoth(created, created);
      }
      hide Clamp;
    }
  }

  lemma AtBoth(a: Stamp, b: Stamp)
    ensures [a, b][0] == a && [a, b][1] == b
  {
  }

  /** The recorded invoice date is kept whenever it is not before the shipment and the creation. */
  lemma RecordedInvoiceIsKept(row: OrderRow)
    requires row.status == "INVOICED" && row.created.At? && row.invoice.At?
    requires var shipped := ShippedAt(row, row.created.stamp).value;
      NotBefore(row.invoice.stamp, shipped) && NotBefore(row.invoice.stamp, row.created.stamp)
    ensures var r := InferOrder(row); !r.invalid && r.events[2].at == row.invoice.stamp
  {
    var shipped := ShippedAt(row, row.created.stamp).value;
    ClampIsNotBeforeAnyFloor(row.invoice.stamp, [shipped, row.created.stamp]);
    AtBoth(shipped, row.created.stamp);
  }

  /* ---- Shipments, invoices and support cases ---- */

  function InferShipment(ship: Field, delivered: Field, promised: Field): Inference {
    if !ship.At? then Inference([], true)
    else
      var due := DueAt(promised);
      var sent := InferredEvent(NONE, "SHIPPED", ship.stamp, due, SlaStatus(ship.stamp, due));
      if delivered.Absent? then Inference([sent], false)
      else if !delivered.At? || !NotBefore(delivered.stamp, ship.stamp) then Inference([sent], true)
      else Inference([sent, InferredEvent("SHIPPED", "DELIVERED", delivered.stamp, due,
          SlaStatus(delivered.stamp, due))], false)
  }

  function InferInvoice(status: string, created: Field, updated: Field): Inference {
    if !created.At? then Inference([], true)
    else
      var issued := InferredEvent(NONE, "ISSUED", created.stamp, None, OnTime);
      if status != "VOID" then Inference([issued], false)
      else if !updated.At? || !NotBefore(updated.stamp, created.stamp) then Inference([issued], true)
      else Inference([issued, InferredEvent("ISSUED", "VOID", updated.stamp, None, OnTime)], false)
  }

  /** A stamp some ticks later; a date only moves by whole days, rounding down. */
  function Plus(s: Stamp, ticks: int): Stamp {
    match s
    case Day(d) => Day(d + ticks / DAY)
    case Moment(d, t) => Moment(d + (t + ticks) / DAY, (t + ticks) % DAY)
  }

  predicate Valid(s: Stamp) { s.Moment? ==> 0 <= s.tick < DAY }

  /** `resolution` is how long the case took, in ticks, when that is a number. */
  function InferCase(status: string, opening: Field, resolution: Option<int>, updated: Field): Inference {
    if !opening.At? then Inference([], true)
    else
      var start := InferredEvent(NONE, "Open", opening.stamp, None, OnTime);
      if status != "Resolved" && status != "Closed" then Inference([start], false)
      else if resolution.None? then Inference([start], true)
      else
        var resolved := Plus(opening.stamp, resolution.value);
        if !NotBefore(resolved, opening.stamp)
            || (!updated.Absent? && (!updated.At? || !NotBefore(updated.stamp, resolved))) then
          Inference([start], true)
        else
          var due := Some(Plus(opening.stamp, 3 * DAY));
          var done := InferredEvent("Open", "Resolved", resolved, due, SlaStatus(resolved, due));
          if status != "Closed" then Inference([start, done], false)
          else if !updated.At? then Inference([start, done], true)
          else Inference([start, done, InferredEvent("Resolved", "Closed", updated.stamp, None, OnTime)], false)
  }

  predicate ShipmentMove(previous: string, next: string) {
    (previous == NONE && next == "SHIPPED") || (previous == "SHIPPED" && next == "DELIVERED")
  }

  predicate InvoiceMove(previous: string, next: string) {
    (previous == NONE && next == "ISSUED") || (previous == "ISSUED" && next == "VOID")
  }

  predicate CaseMove(previous: string, next: string) {
    || (previous == NONE && next == "Open") || (previous == "Open" && next == "Resolved")
    || (previous == "Resolved" && next == "Closed")
  }

  lemma OtherHistoriesAreSound(
    ship: Field, delivered: Field, promised: Field, invoiceStatus: string, caseStatus: string, resolution: Option<int>)
    ensures Chained(InferShipment(ship, delivered, promised).events, ShipmentMove)
    ensures Ordered(InferShipment(ship, delivered, promised).events)
    ensures Chained(InferInvoice(invoiceStatus, ship, delivered).events, InvoiceMove)
    ensures Ordered(InferInvoice(invoiceStatus, ship, delivered).events)
    ensures !InferInvoice(invoiceStatus, ship, delivered).invalid ==>
      (|InferInvoice(invoiceStatus, ship, delivered).events| == 2 <==> invoiceStatus == "VOID")
  {
  }

  /** A case's opening and resolution have one form, so comparing neighbours compares all three. */
  lemma CaseHistoryIsSound(status: string, opening: Field, resolution: Option<int>, updated: Field)
    ensures var r := InferCase(status, opening, resolution, updated);
      && Chained(r.events, CaseMove) && Ordered(r.events)
      && (!r.invalid ==> |r.events| == if status == "Closed" then 3 else if status == "Resolved" then 2 else 1)
  {
  }
}
