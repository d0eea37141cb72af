/** What each inferred event says: when it happened, when it was due, whether that was late, and which
    source rows are flagged. */
module HistoryTimes {
  import opened Wrappers
  import opened HistoryInference

  /** Breached exactly when its day is after the day it was due. */
  predicate IsJudged(e: InferredEvent) {
    e.sla.Breached? <==> e.due.Some? && e.at.day > e.due.value.day
  }

  predicate IsUnjudged(e: InferredEvent) { e.due.None? && e.sla.OnTime? }

  /** A field's stamp, if it has one that is not before `floor`. */
  predicate Usable(f: Field, floor: Stamp) { f.At? && NotBefore(f.stamp, floor) }

  /* ---- Orders ---- */

  predicate Departed(row: OrderRow) {
    row.status == "SHIPPED" || row.status == "INVOICED" || (row.status == "CANCELLED" && row.ship.At?)
  }

  predicate IsPending(row: OrderRow, e: InferredEvent)
    requires row.created.At?
  {
    e.at == row.created.stamp && e.due == DueAt(row.due) && e.sla.OnTime?
  }

  /** At its shipment's date, or at the order's creation where that is missing or too early. */
  predicate IsShipped(row: OrderRow, e: InferredEvent)
    requires row.created.At?
  {
    && e.at == (if Usable(row.ship, row.created.stamp) then row.ship.stamp else row.created.stamp)
    && e.due == DueAt(row.due) && IsJudged(e)
  }

  /** At `wanted` unless that is before a floor, and then at a floor. */
  predicate IsMoved(wanted: Stamp, first: Stamp, second: Stamp, at: Stamp) {
    && NotBefore(at, first) && NotBefore(at, second)
    && if NotBefore(wanted, first) && NotBefore(wanted, second) then at == wanted else at == first || at == second
  }

  predicate IsInvoiced(row: OrderRow, shipped: InferredEvent, e: InferredEvent)
    requires row.created.At?
  {
    && e.due == Some(Day(shipped.at.day + 3)) && IsJudged(e)
    && var recorded := if Usable(row.invoice, shipped.at) then row.invoice else row.updated;
    && recorded.At? && IsMoved(recorded.stamp, shipped.at, row.created.stamp, e.at)
  }

  predicate IsCancelled(row: OrderRow, before: InferredEvent, e: InferredEvent)
    requires row.created.At?
  {
    row.updated.At? && IsMoved(row.updated.stamp, before.at, row.created.stamp, e.at) && IsUnjudged(e)
  }

  predicate OrderEventSays(row: OrderRow, events: seq<InferredEvent>, i: nat)
    requires row.created.At? && i < |events|
  {
    var e := events[i];
    if e.next == "PENDING" then IsPending(row, e)
    else if e.next == "SHIPPED" then IsShipped(row, e)
    else if e.next == "INVOICED" then i > 0 && IsInvoiced(row, events[i - 1], e)
    else i > 0 && IsCancelled(row, events[i - 1], e)
  }

  lemma MovedIsClamped(wanted: Stamp, first: Stamp, second: Stamp)
    requires NotBefore(first, second)
    ensures IsMoved(wanted, first, second, Clamp(wanted, [first, second]))
  {
    ClampIsNotBeforeAnyFloor(wanted, [first, second]);
    AtBoth(first, second);
  }

  lemma OrderEventsSay(row: OrderRow, i: nat)
    requires row.created.At? && i < |InferOrder(row).events|
    ensures OrderEventSays(row, InferOrder(row).events, i)
  {
    var created := row.created.stamp;
    var shipped := ShippedAt(row, created);
    if shipped.Some? {
      if row.invoice.At? { MovedIsClamped(row.invoice.stamp, shipped.value, created); }
      if row.updated.At? { MovedIsClamped(row.updated.stamp, shipped.value, created); }
    } else if row.updated.At? {
      MovedIsClamped(row.updated.stamp, created, created);
    }
    hide Clamp;
  }

  /** Which order rows are flagged, and which leave a shipment behind. */
  lemma OrderIsFlaggedExactly(row: OrderRow)
    ensures InferOrder(row).invalid <==>
      || !row.created.At?
      || (row.status == "CANCELLED" && !row.updated.At?)
      || (row.status == "INVOICED" && !row.updated.At? && !Usable(row.invoice, ShippedAt(row, row.created.stamp).value))
    ensures row.created.At? ==>
      (Departed(row) <==> |InferOrder(row).events| > 1 && InferOrder(row).events[1].next == "SHIPPED")
  {
  }

  /* ---- Shipments and invoices ---- */

  lemma ShipmentEventsSay(ship: Field, delivered: Field, promised: Field)
    ensures var r := InferShipment(ship, delivered, promised);
      && (r.invalid <==> !ship.At? || (!delivered.Absent? && !Usable(delivered, ship.stamp)))
      && |r.events| == (if !ship.At? then 0 else if Usable(delivered, ship.stamp) then 2 else 1)
      && (forall i :: 0 <= i < |r.events| ==> r.events[i].due == DueAt(promised) && IsJudged(r.events[i]))
      && (|r.events| > 0 ==> r.events[0].at == ship.stamp)
      && (|r.events| > 1 ==> r.events[1].at == delivered.stamp)
  {
  }

  lemma InvoiceEventsSay(status: string, created: Field, updated: Field)
    ensures var r := InferInvoice(status, created, updated);
      && (r.invalid <==> !created.At? || (status == "VOID" && !Usable(updated, created.stamp)))
      && |r.events| == (if !created.At? then 0 else if status == "VOID" && Usable(updated, created.stamp) then 2 else 1)
      && (forall i :: 0 <= i < |r.events| ==> IsUnjudged(r.events[i]))
      && (|r.events| > 0 ==> r.events[0].at == created.stamp)
      && (|r.events| > 1 ==> r.events[1].at == updated.stamp)
  {
  }

  /* ---- Support cases ---- */

  /** Ticks since day 0; a date counts whole days only. */
  function Instant(s: Stamp): int { s.day * DAY + if s.Moment? then s.tick else 0 }

  /** `later` is so many ticks after `s`; of a date, the date in whose day that falls. */
  predicate IsAfter(s: Stamp, ticks: int, later: Stamp) {
    && (later.Moment? <==> s.Moment?)
    && if s.Moment? then Instant(later) == Instant(s) + ticks && 0 <= later.tick < DAY
       else later.day * DAY <= Instant(s) + ticks < (later.day + 1) * DAY
  }

  lemma PlusIsAfter(s: Stamp, ticks: int)
    requires Valid(s)
    ensures IsAfter(s, ticks, Plus(s, ticks))
  {
  }

  lemma ThreeDaysAfter(s: Stamp)
    requires Valid(s)
    ensures Plus(s, 3 * DAY) == if s.Day? then Day(s.day + 3) else Moment(s.day + 3, s.tick)
  {
  }

  ghost predicate ResolutionSays(opening: Stamp, ticks: int, e: InferredEvent) {
    && IsAfter(opening, ticks, e.at) && e.due.Some? && e.due.value.day == opening.day + 3
    && (e.sla.Breached? <==> e.at.day > opening.day + 3)
  }

  /** A case ends when its update says, was resolved as many hours after its opening as it records, and
      that was late exactly when more than three days on. */
  lemma CaseEventsSay(status: string, opening: Field, resolution: Option<int>, updated: Field)
    requires opening.At? ==> Valid(opening.stamp)
    ensures var r := InferCase(status, opening, resolution, updated);
      && (|r.events| > 0 <==> opening.At?)
      && (|r.events| > 0 ==> r.events[0].at == opening.stamp && IsUnjudged(r.events[0]))
      && (|r.events| > 1 ==> resolution.Some? && ResolutionSays(opening.stamp, resolution.value, r.events[1]))
      && (|r.events| > 2 ==> updated.At? && r.events[2].at == updated.stamp && IsUnjudged(r.events[2]))
  {
    if opening.At? && resolution.Some? {
      PlusIsAfter(opening.stamp, resolution.value);
      ThreeDaysAfter(opening.stamp);
      hide Plus;
    }
  }

  /** A resolved case is flagged exactly when its hours are no number, or negative, or its update comes
      before its resolution, or a closed one has none. */
  lemma CaseIsFlaggedExactly(status: string, opening: Field, resolution: Option<int>, updated: Field)
    ensures InferCase(status, opening, resolution, updated).invalid <==>
      || !opening.At?
      || ((status == "Resolved" || status == "Closed") &&
            (resolution.None? || !NotBefore(Plus(opening.stamp, resolution.value), opening.stamp)
             || !(if updated.Absent? then status == "Resolved"
                  else Usable(updated, Plus(opening.stamp, resolution.value)))))
  {
  }
}
