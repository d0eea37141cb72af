/** The CRM portion of a simulation date as it runs, over the event ledger and the published deltas.

    A date's events are drawn at random, so two attempts may draw differently: what the first
    surviving recording holds is what the date publishes, once, whatever crashes follow. */
module CrmRun {
  import opened Ordering
  import opened OpsEvents
  import opened CrmStages

  datatype Outcome = Finished(records: nat) | Crashed | Failed(error: Error)

  /** An attempt at a date: the events it would draw, and the durable writes it survives. */
  datatype Attempt = Attempt(drawn: seq<StageEvent>, budget: nat)

  /* ---- The order of a date's events does not matter ---- */

  lemma CountedTwice<T>(s: seq<T>, i: nat, j: nat)
    requires i < j < |s| && s[i] == s[j]
    ensures multiset(s)[s[i]] >= 2
  {
    assert s == s[..j] + s[j..];
    assert s[i] in multiset(s[..j]) && s[i] in multiset(s[j..]);
  }

  lemma PermutedIsPlanned(stages: Stages, a: seq<StageEvent>, b: seq<StageEvent>)
    requires Planned(stages, a) && multiset(a) == multiset(b)
    ensures Planned(stages, b)
  {
    MultisetElements(a, b);
    forall i | 0 <= i < |b| ensures exists k :: 0 <= k < |a| && a[k] == b[i] {
      assert b[i] in Elements(a);
    }
    forall i, j | 0 <= i < j < |b| ensures b[i].opportunity != b[j].opportunity {
      if b[i].opportunity == b[j].opportunity {
        assert b[i] == b[j];
        CountedTwice(b, i, j);
        NoRepeatsCountsOnce(a, b[i]);
      }
    }
  }

  lemma SameForOne(date: Date, stages: Stages, a: seq<StageEvent>, b: seq<StageEvent>, id: int)
    requires Planned(stages, a) && Planned(stages, b) && multiset(a) == multiset(b)
    ensures Before(Materialized(stages, a), id) == Before(Materialized(stages, b), id)
    ensures RowsOf(HistoryRows(date, stages, a), id) == RowsOf(HistoryRows(date, stages, b), id)
  {
    hide Materialized, HistoryRows, RowsOf, Planned;
    MultisetElements(a, b);
    if About(a, id) {
      var i :| 0 <= i < |a| && a[i].opportunity == id;
      assert a[i] in Elements(b);
      var j :| 0 <= j < |b| && b[j] == a[i];
      Touched(date, stages, a, i);
      Touched(date, stages, b, j);
    } else {
      forall j | 0 <= j < |b| ensures b[j].opportunity != id { assert b[j] in Elements(a); }
      Untouched(date, stages, a, id);
      Untouched(date, stages, b, id);
    }
  }

  lemma PlansAreOnePer(stages: Stages, events: seq<StageEvent>)
    requires Planned(stages, events)
    ensures OnePerOpportunity(events)
  {
  }

  /** Recorded events come back in id order; publishing them so leaves the stages and every
      opportunity's history as the planner's own order would. */
  lemma SameEventsSameEffect(date: Date, stages: Stages, a: seq<StageEvent>, b: seq<StageEvent>)
    requires Planned(stages, a) && multiset(a) == multiset(b)
    ensures Planned(stages, b) && Materialized(stages, a) == Materialized(stages, b)
    ensures forall id :: RowsOf(HistoryRows(date, stages, a), id) == RowsOf(HistoryRows(date, stages, b), id)
  {
    PermutedIsPlanned(stages, a, b);
    hide Materialized, HistoryRows, RowsOf, Planned, Before;
    forall id
      ensures Before(Materialized(stages, a), id) == Before(Materialized(stages, b), id)
      ensures RowsOf(HistoryRows(date, stages, a), id) == RowsOf(HistoryRows(date, stages, b), id)
    {
      SameForOne(date, stages, a, b, id);
    }
    SameStages(Materialized(stages, a), Materialized(stages, b));
  }

  lemma SameStages(a: Stages, b: Stages)
    requires forall id :: Before(a, id) == Before(b, id)
    ensures a == b
  {
    forall id ensures (id in a <==> id in b) && (id in a ==> a[id] == b[id]) {
      assert Before(a, id) == Before(b, id);
    }
  }

  /* ---- Every published event has its history row ---- */

  predicate OnePerOpportunity(events: seq<StageEvent>) {
    forall i, j :: 0 <= i < j < |events| ==> events[i].opportunity != events[j].opportunity
  }

  ghost predicate HasRow(rows: seq<HistoryRow>, d: Date, stage: Stage) {
    exists i :: 0 <= i < |rows| && rows[i].date == d && rows[i].stage == stage
  }

  /** A date has one event per opportunity; once it is published, each that moves a stage is in the
      history. */
  ghost predicate Trail(history: seq<HistoryRow>, recorded: map<Date, seq<StageEvent>>, published: set<Date>) {
    && (forall d :: d in recorded ==> OnePerOpportunity(recorded[d]))
    && (forall d, e :: d in published && d in recorded && e in recorded[d] ==> OnTrail(history, d, e))
  }

  ghost predicate OnTrail(history: seq<HistoryRow>, d: Date, e: StageEvent) {
    e.Stalled? || HasRow(RowsOf(history, e.opportunity), d, StageOf(e))
  }

  lemma RowStays(rows: seq<HistoryRow>, more: seq<HistoryRow>, d: Date, stage: Stage)
    requires HasRow(rows, d, stage) || HasRow(more, d, stage)
    ensures HasRow(rows + more, d, stage)
  {
    var all := rows + more;
    if HasRow(rows, d, stage) {
      var i :| 0 <= i < |rows| && rows[i].date == d && rows[i].stage == stage;
      assert all[i] == rows[i];
    } else {
      var i :| 0 <= i < |more| && more[i].date == d && more[i].stage == stage;
      assert all[|rows| + i] == more[i];
    }
  }

  lemma EventLeavesItsRow(date: Date, stages: Stages, events: seq<StageEvent>, e: StageEvent)
    requires Planned(stages, events) && e in events && !e.Stalled?
    ensures HasRow(RowsOf(HistoryRows(date, stages, events), e.opportunity), date, StageOf(e))
  {
    var i :| 0 <= i < |events| && events[i] == e;
    Touched(date, stages, events, i);
    var rows := RowsOf(HistoryRows(date, stages, events), e.opportunity);
    hide RowsOf, HistoryRows, Planned;
    assert rows[0].date == date && rows[0].stage == StageOf(e);
  }

  lemma PublishingKeepsTrail(
    date: Date, stages: Stages, recorded: map<Date, seq<StageEvent>>, published: set<Date>,
    was: seq<HistoryRow>, now: seq<HistoryRow>)
    requires Trail(was, recorded, published) && date in recorded && Planned(stages, recorded[date])
    requires forall i :: RowsOf(now, i) == RowsOf(was, i) + RowsOf(HistoryRows(date, stages, recorded[date]), i)
    ensures Trail(now, recorded, published + {date})
  {
    hide RowsOf, HistoryRows, Planned, HasRow;
    forall d, e | d in published + {date} && d in recorded && e in recorded[d] && !e.Stalled?
      ensures HasRow(RowsOf(now, e.opportunity), d, StageOf(e))
    {
      if d == date {
        EventLeavesItsRow(date, stages, recorded[date], e);
      } else {
        assert OnTrail(was, d, e);
      }
      var more := HistoryRows(date, stages, recorded[date]);
      RowStays(RowsOf(was, e.opportunity), RowsOf(more, e.opportunity), d, StageOf(e));
    }
  }

  /* ---- Running a date ---- */

  class CrmRun {
    const id: StageEvent -> int
    const deltas: CrmDeltas
    var recorded: map<Date, seq<StageEvent>>

    ghost predicate Valid()
      reads this, deltas
    {
      && deltas.Valid()
      && (forall d :: d in recorded ==> |recorded[d]| > 0)
      && (forall d :: d in deltas.published ==>
            d in recorded && multiset(deltas.published[d]) == multiset(recorded[d]))
      && Trail(deltas.history, recorded, deltas.published.Keys)
    }

    /** Events recorded for a date and not yet published still fit the stages. */
    ghost predicate Pending(d: Date)
      reads this, deltas
    {
      d in recorded && d !in deltas.published ==> Planned(deltas.stages, recorded[d])
    }

    /** The stages and every opportunity's history are those of before with `events` of date `d` added. */
    ghost predicate Brought(d: Date, events: seq<StageEvent>, stages: Stages, history: seq<HistoryRow>)
      reads deltas
    {
      && deltas.stages == Materialized(stages, events)
      && forall i :: RowsOf(deltas.history, i) == RowsOf(history, i) + RowsOf(HistoryRows(d, stages, events), i)
    }

    constructor (id: StageEvent -> int, seed: Stages)
      ensures Valid() && this.id == id && fresh(deltas)
      ensures deltas.stages == seed && deltas.history == [] && deltas.published == map[] && recorded == map[]
    {
      this.id, recorded := id, map[];
      deltas := new CrmDeltas(seed);
    }

    /** Plan unless the date's events are on record, and publish what is. */
    method Run(d: Date, drawn: seq<StageEvent>, budget: nat) returns (outcome: Outcome, left: nat)
      requires Valid() && Pending(d)
      requires d !in recorded ==> |drawn| > 0 && Planned(deltas.stages, drawn)
      modifies this`recorded, deltas
      ensures Valid() && Pending(d) && !outcome.Failed? && left <= budget <= left + 2
      ensures recorded == if d in old(recorded) || budget == 0 then old(recorded) else old(recorded)[d := drawn]
      ensures outcome.Crashed? ==> budget < 2
      ensures outcome.Crashed? || d in old(deltas.published) ==>
        && deltas.stages == old(deltas.stages) && deltas.history == old(deltas.history)
        && deltas.published == old(deltas.published)
      ensures outcome.Finished? ==>
        && d in recorded && outcome.records == |recorded[d]|
        && deltas.published.Keys == old(deltas.published.Keys) + {d}
      ensures outcome.Finished? && d !in old(deltas.published) ==>
        Brought(d, recorded[d], old(deltas.stages), old(deltas.history))
    {
      hide Planned, Materialized, HistoryRows, RowsOf, Tracked;
      left := budget;
      var events := drawn;
      if d in recorded {
        events := Sort(recorded[d], id);
        SortIsSortedPermutation(recorded[d], id);
      } else {
        if left == 0 { return Crashed, 0; }
        PlansAreOnePer(deltas.stages, drawn);
        recorded, left := recorded[d := drawn], left - 1;
      }
      if left == 0 { return Crashed, 0; }
      if d in deltas.published {
        var again := deltas.Publish(d, events);
        if again.Err? { return Failed(again.error), left; }
        return Finished(|events|), left;
      }
      SameEventsSameEffect(d, deltas.stages, recorded[d], events);
      ghost var stages, history, published := deltas.stages, deltas.history, deltas.published.Keys;
      var first := deltas.Publish(d, events);
      if first.Err? { return Failed(first.error), left; }
      forall i
        ensures RowsOf(deltas.history, i) == RowsOf(history, i) + RowsOf(HistoryRows(d, stages, recorded[d]), i)
      {
        RowsOfAppend(history, HistoryRows(d, stages, events), i);
      }
      PublishingKeepsTrail(d, stages, recorded, published, history, deltas.history);
      assert deltas.published.Keys == published + {d};
      outcome, left := Finished(|events|), left - 1;
    }

    /** The draw a date ends up with. */
    function Decided(attempts: seq<Attempt>, last: seq<StageEvent>): seq<StageEvent> {
      if |attempts| == 0 then last
      else if attempts[0].budget > 0 then attempts[0].drawn
      else Decided(attempts[1..], last)
    }

    /** However often a date is attempted, and whatever each attempt draws, it publishes the events of
        the first attempt that recorded any, once. */
    method RunDate(d: Date, attempts: seq<Attempt>, last: seq<StageEvent>)
      requires Valid() && d !in recorded
      requires forall i :: 0 <= i < |attempts| ==>
        |attempts[i].drawn| > 0 && Planned(deltas.stages, attempts[i].drawn)
      requires |last| > 0 && Planned(deltas.stages, last)
      modifies this`recorded, deltas
      ensures Valid() && recorded == old(recorded)[d := Decided(attempts, last)] && d in deltas.published
      ensures Brought(d, Decided(attempts, last), old(deltas.stages), old(deltas.history))
    {
      ghost var stages, history := deltas.stages, deltas.history;
      for k := 0 to |attempts|
        invariant Valid() && Pending(d)
        invariant d !in recorded ==>
          recorded == old(recorded) && Decided(attempts, last) == Decided(attempts[k..], last)
        invariant d in recorded ==> recorded == old(recorded)[d := Decided(attempts, last)]
        invariant d !in deltas.published ==> deltas.stages == stages && deltas.history == history
        invariant d in deltas.published ==> Brought(d, Decided(attempts, last), stages, history)
      {
        assert attempts[k..][0] == attempts[k] && attempts[k..][1..] == attempts[k + 1..];
        var _, _ := Run(d, attempts[k].drawn, attempts[k].budget);
      }
      var _, _ := Run(d, last, 2);
    }
  }
}
