/** Opportunity stages over all simulated dates, and the history published with them.

    A date's events are drawn at random; the model lets any draw happen that the planner allows. */
module CrmStages {
  import opened Wrappers
  import opened Ordering
  import opened OpsEvents

  datatype Stage = Prospecting | Qualification | Proposal | Negotiation | ClosedWon | Other(name: string)

  predicate IsOpen(s: Stage) { s.Prospecting? || s.Qualification? || s.Proposal? || s.Negotiation? }

  function Successor(s: Stage): Stage
    requires IsOpen(s)
  {
    match s
    case Prospecting => Qualification
    case Qualification => Proposal
    case Proposal => Negotiation
    case Negotiation => ClosedWon
  }

  /** The opportunity events of a date, each about one opportunity. */
  datatype StageEvent =
    | Created(opportunity: int)
    | Changed(opportunity: int, stage: Stage)
    | Stalled(opportunity: int, stage: Stage)

  datatype HistoryRow = HistoryRow(date: Date, opportunity: int, previous: Option<Stage>, stage: Stage)

  datatype Error = DifferentEvents | RepeatedRecord | AlreadyExists | UnknownRecord

  type Stages = map<int, Stage>

  /* ---- Planning ---- */

  function MoveOf(stages: Stages, id: int, stalls: bool): StageEvent
    requires id in stages && IsOpen(stages[id])
  {
    if stalls then Stalled(id, stages[id]) else Changed(id, Successor(stages[id]))
  }

  /** The sampled open opportunities: the first `stalled` of them stall, the others move on. */
  method StageEvents(selected: seq<int>, stages: Stages, stalled: nat) returns (events: seq<StageEvent>)
    requires forall i :: 0 <= i < |selected| ==> selected[i] in stages && IsOpen(stages[selected[i]])
    requires NoRepeats(selected)
    ensures |events| == |selected|
    ensures forall i :: 0 <= i < |events| ==> events[i] == MoveOf(stages, selected[i], i < stalled)
  {
    var stalledIds := set i | 0 <= i < |selected| && i < stalled :: selected[i];
    events := [];
    for i := 0 to |selected|
      invariant |events| == i
      invariant forall k :: 0 <= k < i ==> events[k] == MoveOf(stages, selected[k], k < stalled)
    {
      var id := selected[i];
      assert id in stalledIds <==> i < stalled;
      if id in stalledIds {
        events := events + [Stalled(id, stages[id])];
      } else {
        events := events + [Changed(id, Successor(stages[id]))];
      }
    }
  }

  /** What the planner may plan: new opportunities under new ids, and moves of open ones, at most one
      event each. */
  predicate Planned(stages: Stages, events: seq<StageEvent>) {
    && (forall i, j :: 0 <= i < j < |events| ==> events[i].opportunity != events[j].opportunity)
    && (forall i :: 0 <= i < |events| ==> MayHappen(stages, events[i]))
  }

  predicate MayHappen(stages: Stages, e: StageEvent) {
    match e
    case Created(id) => id !in stages
    case Changed(id, stage) => id in stages && IsOpen(stages[id]) && stage == Successor(stages[id])
    case Stalled(id, stage) => id in stages && IsOpen(stages[id]) && stage == stages[id]
  }

  /** New ids follow the highest one, so a date's creations and moves are a plan. */
  lemma CreationsAndMovesArePlanned(stages: Stages, next: int, count: nat, moves: seq<StageEvent>)
    requires forall id :: id in stages ==> id < next
    requires forall i, j :: 0 <= i < j < |moves| ==> moves[i].opportunity != moves[j].opportunity
    requires forall i :: 0 <= i < |moves| ==> !moves[i].Created? && MayHappen(stages, moves[i])
    ensures Planned(stages, seq(count, i => Created(next + i)) + moves)
  {
    var created := seq(count, i => Created(next + i));
    var events := created + moves;
    forall i, j | 0 <= i < j < |events| ensures events[i].opportunity != events[j].opportunity {
      assert i < count ==> events[i] == Created(next + i);
      assert j < count ==> events[j] == Created(next + j);
      assert j >= count ==> events[j] == moves[j - count];
      assert i >= count ==> events[i] == moves[i - count];
    }
  }

  /* ---- Publishing ---- */

  function StageOf(e: StageEvent): Stage {
    match e
    case Created(_) => Prospecting
    case Changed(_, stage) => stage
    case Stalled(_, stage) => stage
  }

  /** The rows after a date: each event's payload over the row before. */
  function Materialized(stages: Stages, events: seq<StageEvent>): Stages {
    if |events| == 0 then stages
    else Materialized(stages, events[..|events| - 1])[events[|events| - 1].opportunity := StageOf(events[|events| - 1])]
  }

  function Before(stages: Stages, id: int): Option<Stage> {
    if id in stages then Some(stages[id]) else None
  }

  /** The history row an event leaves; a stalled opportunity leaves none. */
  function RowFor(date: Date, stages: Stages, e: StageEvent): seq<HistoryRow> {
    if e.Stalled? then [] else [HistoryRow(date, e.opportunity, Before(stages, e.opportunity), StageOf(e))]
  }

  /** History rows of a date. */
  function HistoryRows(date: Date, stages: Stages, events: seq<StageEvent>): seq<HistoryRow> {
    if |events| == 0 then []
    else
      var last := events[|events| - 1];
      HistoryRows(date, stages, events[..|events| - 1]) + RowFor(date, stages, last)
  }

  /* ---- Paths ---- */

  predicate Legal(from: Option<Stage>, to: Stage) {
    match from
    case None => to.Prospecting?
    case Some(s) => IsOpen(s) && to == Successor(s)
  }

  /** Rows of one opportunity that lead from `start` on, each from where the one before it ended. */
  predicate Path(start: Option<Stage>, rows: seq<HistoryRow>) {
    if |rows| == 0 then true
    else
      && Path(start, rows[..|rows| - 1])
      && rows[|rows| - 1].previous == End(start, rows[..|rows| - 1])
      && Legal(rows[|rows| - 1].previous, rows[|rows| - 1].stage)
  }

  function End(start: Option<Stage>, rows: seq<HistoryRow>): Option<Stage> {
    if |rows| == 0 then start else Some(rows[|rows| - 1].stage)
  }

  function RowsOf(history: seq<HistoryRow>, id: int): seq<HistoryRow> {
    if |history| == 0 then []
    else RowsOf(history[..|history| - 1], id) + if history[|history| - 1].opportunity == id then
        [history[|history| - 1]] else []
  }

  /** Every opportunity's rows are a path from its seed stage to its current one. */
  ghost predicate Tracked(seed: Stages, stages: Stages, history: seq<HistoryRow>) {
    forall id :: PathTo(seed, stages, history, id)
  }

  ghost predicate PathTo(seed: Stages, stages: Stages, history: seq<HistoryRow>, id: int) {
    Path(Before(seed, id), RowsOf(history, id)) && End(Before(seed, id), RowsOf(history, id)) == Before(stages, id)
  }

  lemma {:induction false} RowsOfAppend(a: seq<HistoryRow>, b: seq<HistoryRow>, id: int)
    ensures RowsOf(a + b, id) == RowsOf(a, id) + RowsOf(b, id)
  {
    if |b| == 0 {
      assert a + b == a;
    } else {
      RowsOfAppend(a, b[..|b| - 1], id);
      assert (a + b)[..|a + b| - 1] == a + b[..|b| - 1];
    }
  }

  lemma LastRow(date: Date, stages: Stages, events: seq<StageEvent>, id: int)
    requires |events| > 0
    ensures var rest, last := events[..|events| - 1], events[|events| - 1];
      RowsOf(HistoryRows(date, stages, events), id)
      == RowsOf(HistoryRows(date, stages, rest), id)
         + if last.opportunity == id then RowFor(date, stages, last) else []
  {
    var rest, last := events[..|events| - 1], events[|events| - 1];
    RowsOfAppend(HistoryRows(date, stages, rest), RowFor(date, stages, last), id);
  }

  predicate About(events: seq<StageEvent>, id: int) {
    exists i :: 0 <= i < |events| && events[i].opportunity == id
  }

  /** Of a date's events, those about an opportunity that has none change nothing of it. */
  lemma {:induction false} Untouched(date: Date, stages: Stages, events: seq<StageEvent>, id: int)
    requires !About(events, id)
    ensures Before(Materialized(stages, events), id) == Before(stages, id)
    ensures RowsOf(HistoryRows(date, stages, events), id) == []
  {
    if |events| > 0 {
      var rest, last := events[..|events| - 1], events[|events| - 1];
      hide HistoryRows, RowsOf;
      assert forall i :: 0 <= i < |rest| ==> rest[i] == events[i];
      Untouched(date, stages, rest, id);
      assert last.opportunity != id;
      LastRow(date, stages, events, id);
    }
  }

  /** The one event about an opportunity decides its row and its history row. */
  lemma {:induction false} Touched(date: Date, stages: Stages, events: seq<StageEvent>, i: nat)
    requires i < |events| && Planned(stages, events)
    ensures var e := events[i];
      && Before(Materialized(stages, events), e.opportunity) == Some(StageOf(e))
      && RowsOf(HistoryRows(date, stages, events), e.opportunity)
         == RowFor(date, stages, e)
  {
    hide HistoryRows, RowsOf, RowFor, MayHappen, StageOf;
    var rest, id := events[..|events| - 1], events[i].opportunity;
    LastRow(date, stages, events, id);
    if i == |rest| {
      Untouched(date, stages, rest, id);
    } else {
      assert rest[i] == events[i] && events[|rest|].opportunity != id;
      Touched(date, stages, rest, i);
    }
  }

  lemma PathGrows(start: Option<Stage>, rows: seq<HistoryRow>, r: HistoryRow)
    requires Path(start, rows) && r.previous == End(start, rows) && Legal(r.previous, r.stage)
    ensures Path(start, rows + [r]) && End(start, rows + [r]) == Some(r.stage)
  {
    assert (rows + [r])[..|rows|] == rows;
  }

  /** A planned date keeps every path. */
  lemma DateKeepsPaths(seed: Stages, stages: Stages, history: seq<HistoryRow>, date: Date, events: seq<StageEvent>)
    requires Tracked(seed, stages, history) && Planned(stages, events)
    ensures Tracked(seed, Materialized(stages, events), history + HistoryRows(date, stages, events))
  {
    hide Path, RowsOf, Materialized, HistoryRows;
    var rows := HistoryRows(date, stages, events);
    forall id ensures PathTo(seed, Materialized(stages, events), history + rows, id) {
      assert PathTo(seed, stages, history, id);
      RowsOfAppend(history, rows, id);
      if About(events, id) {
        var i :| 0 <= i < |events| && events[i].opportunity == id;
        Touched(date, stages, events, i);
        assert MayHappen(stages, events[i]);
        if events[i].Stalled? {
          assert RowsOf(history, id) + [] == RowsOf(history, id);
        } else {
          PathGrows(Before(seed, id), RowsOf(history, id),
              HistoryRow(date, id, Before(stages, id), StageOf(events[i])));
        }
      } else {
        Untouched(date, stages, events, id);
        assert RowsOf(history, id) + [] == RowsOf(history, id);
      }
    }
  }

  /* ---- Stage by stage ---- */

  /** The stages of a deal that is won, in their order. */
  const LADDER: seq<Stage> := [Prospecting, Qualification, Proposal, Negotiation, ClosedWon]

  /** A new opportunity starts at the bottom; every move goes up by one. */
  predicate OneUp(from: Option<Stage>, to: Stage) {
    match from
    case None => to == LADDER[0]
    case Some(s) => exists i :: 0 <= i < |LADDER| - 1 && s == LADDER[i] && to == LADDER[i + 1]
  }

  lemma LegalIsOneUp(from: Option<Stage>, to: Stage)
    ensures Legal(from, to) <==> OneUp(from, to)
  {
    assert LADDER[0] == Prospecting && LADDER[1] == Qualification && LADDER[2] == Proposal;
    assert LADDER[3] == Negotiation && LADDER[4] == ClosedWon;
  }

  /** Along a path every row goes up by one from where the row before it, or the seed, stood. */
  lemma {:induction false} PathClimbs(start: Option<Stage>, rows: seq<HistoryRow>, i: nat)
    requires Path(start, rows) && i < |rows|
    ensures rows[i].previous == (if i == 0 then start else Some(rows[i - 1].stage))
    ensures OneUp(rows[i].previous, rows[i].stage)
  {
    if i < |rows| - 1 {
      PathClimbs(start, rows[..|rows| - 1], i);
    } else {
      LegalIsOneUp(rows[i].previous, rows[i].stage);
    }
  }

  /** So the rows stand on consecutive rungs; `below` is how many there are up to the start. */
  lemma {:induction false} PathIsOnTheLadder(start: Option<Stage>, rows: seq<HistoryRow>, below: nat, i: nat)
    requires Path(start, rows) && i < |rows|
    requires if start.None? then below == 0 else 0 < below <= |LADDER| && start.value == LADDER[below - 1]
    ensures below + i < |LADDER| && rows[i].stage == LADDER[below + i]
  {
    PathClimbs(start, rows, i);
    if i > 0 { PathIsOnTheLadder(start, rows, below, i - 1); }
  }

  function StagesIn(rows: seq<HistoryRow>): (r: seq<Stage>)
    ensures |r| == |rows| && forall i :: 0 <= i < |r| ==> r[i] == rows[i].stage
  {
    seq(|rows|, i requires 0 <= i < |rows| => rows[i].stage)
  }

  /** An opportunity created in the simulation has climbed the ladder as far as it stands, and one that
      is won has climbed all of it. */
  lemma CreatedClimbsTheLadder(seed: Stages, stages: Stages, history: seq<HistoryRow>, id: int)
    requires Tracked(seed, stages, history) && id !in seed && id in stages
    ensures var climbed := StagesIn(RowsOf(history, id));
      && climbed <= LADDER && |climbed| > 0 && stages[id] == climbed[|climbed| - 1]
      && (stages[id].ClosedWon? <==> climbed == LADDER)
  {
    hide Path, RowsOf;
    assert PathTo(seed, stages, history, id);
    var rows := RowsOf(history, id);
    forall i | 0 <= i < |rows| ensures i < |LADDER| && rows[i].stage == LADDER[i] {
      PathIsOnTheLadder(None, rows, 0, i);
    }
    if |rows| > 0 { PathIsOnTheLadder(None, rows, 0, |rows| - 1); }
    assert LADDER[3] == Negotiation && LADDER[4] == ClosedWon;
  }

  /* ---- A deal is won once ---- */

  function Wins(rows: seq<HistoryRow>): nat {
    if |rows| == 0 then 0 else Wins(rows[..|rows| - 1]) + if rows[|rows| - 1].stage.ClosedWon? then 1 else 0
  }

  /** Along a path a deal is won at most once: it was won exactly when the path, having left its
      start, ends there. */
  lemma {:induction false} WonAtMostOnce(start: Option<Stage>, rows: seq<HistoryRow>)
    requires Path(start, rows)
    ensures Wins(rows) == if |rows| > 0 && End(start, rows) == Some(ClosedWon) then 1 else 0
  {
    if |rows| > 0 { WonAtMostOnce(start, rows[..|rows| - 1]); }
  }

  class CrmDeltas {
    const seed: Stages
    var stages: Stages
    var history: seq<HistoryRow>
    var published: map<Date, seq<StageEvent>>

    ghost predicate Valid()
      reads this
    {
      Tracked(seed, stages, history)
    }

    constructor (seed: Stages)
      ensures Valid() && stages == seed && this.seed == seed && history == [] && published == map[]
    {
      this.seed, stages, history, published := seed, seed, [], map[];
    }

    /** Publish a date's events once; publishing the same again changes nothing. */
    method Publish(date: Date, events: seq<StageEvent>) returns (r: Result<(), Error>)
      requires Valid() && (date !in published ==> Planned(stages, events))
      modifies this
      ensures Valid()
      ensures date in old(published) ==>
        && (r.Ok? <==> multiset(old(published)[date]) == multiset(events))
        && stages == old(stages) && history == old(history) && published == old(published)
      ensures date !in old(published) ==>
        && r.Ok? && published == old(published)[date := events]
        && stages == Materialized(old(stages), events)
            && history == old(history) + HistoryRows(date, old(stages), events)
    {
      if date in published {
        return if multiset(published[date]) == multiset(events) then Ok(()) else Err(DifferentEvents);
      }
      DateKeepsPaths(seed, stages, history, date, events);
      var current, rows := stages, [];
      var seen: set<int> := {};
      for i := 0 to |events|
        invariant current == Materialized(stages, events[..i]) && rows == HistoryRows(date, stages, events[..i])
        invariant forall id :: id in seen <==> About(events[..i], id)
        invariant stages == old(stages) && history == old(history) && published == old(published)
      {
        var e := events[i];
        assert events[..i + 1][..i] == events[..i];
        assert !About(events[..i], e.opportunity);
        if e.opportunity in seen { return Err(RepeatedRecord); }
        assert MayHappen(stages, e);
        if e.Created? && e.opportunity in stages { return Err(AlreadyExists); }
        if !e.Created? && e.opportunity !in stages { return Err(UnknownRecord); }
        AboutNext(events, i);
        if !e.Stalled? { rows := rows + [HistoryRow(date, e.opportunity, Before(stages, e.opportunity), StageOf(e))]; }
        current := current[e.opportunity := StageOf(e)];
        seen := seen + {e.opportunity};
      }
      assert events[..|events|] == events;
      stages, history, published := current, history + rows, published[date := events];
      r := Ok(());
    }
  }

  lemma AboutNext(events: seq<StageEvent>, i: nat)
    requires i < |events|
    ensures forall id :: About(events[..i + 1], id) <==> About(events[..i], id) || events[i].opportunity == id
  {
    forall id ensures About(events[..i + 1], id) <==> About(events[..i], id) || events[i].opportunity == id {
      if About(events[..i], id) {
        var k :| 0 <= k < i && events[..i][k].opportunity == id;
        assert events[..i + 1][k].opportunity == id;
      }
      if events[i].opportunity == id { assert events[..i + 1][i].opportunity == id; }
      if About(events[..i + 1], id) {
        var k :| 0 <= k < i + 1 && events[..i + 1][k].opportunity == id;
        assert k < i ==> events[..i][k].opportunity == id;
      }
    }
  }
}
