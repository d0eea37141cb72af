/** The durable control state of the simulation: the watermark, the runs and their source runs.

    The ghost log records every durable write.  `WellOrdered` says of a log, write by write, what may
    come after what; the runner's logs satisfy it whatever crashes cut them. */
module SimulationState {
  import opened Wrappers
  import opened OpsEvents

  datatype Source = Crm | Ops | Erp
  datatype SourceState = Pending | Applied(generated: nat, applied: nat)

  /** A run row: its state, and whether its date was picked for the weekly breach. */
  datatype RunState = InProgress(breach: bool) | Completed(breach: bool)

  datatype Error =
    | NotInitialized | OtherBaseline | ClaimedOutOfOrder | NotClaimed
    | AppliedOutOfOrder | CompletedOutOfOrder | SourcesPending

  predicate Before(a: Source, b: Source) {
    (a.Crm? && !b.Crm?) || (a.Ops? && b.Erp?)
  }

  datatype Write = Claimed(date: Date) | Marked(date: Date, source: Source) | Closed(date: Date) | Advanced(date: Date)

  /** The watermark a log leads to. */
  function Level(baseline: Date, log: seq<Write>): Date {
    if |log| == 0 then baseline
    else if log[|log| - 1].Advanced? then log[|log| - 1].date
    else Level(baseline, log[..|log| - 1])
  }

  /** What must have been written before `w`. */
  predicate Justified(baseline: Date, past: seq<Write>, w: Write) {
    && w.date == Level(baseline, past) + 1
    && match w
       case Claimed(d) => true
       case Marked(d, s) => Claimed(d) in past && forall t :: Before(t, s) ==> Marked(d, t) in past
       case Closed(d) => forall t :: Marked(d, t) in past
       case Advanced(d) => Closed(d) in past && forall t :: Marked(d, t) in past
  }

  ghost predicate WellOrdered(baseline: Date, log: seq<Write>) {
    forall i :: 0 <= i < |log| ==> Justified(baseline, log[..i], log[i])
  }

  lemma WellOrderedGrows(baseline: Date, log: seq<Write>, w: Write)
    requires WellOrdered(baseline, log) && Justified(baseline, log, w)
    ensures WellOrdered(baseline, log + [w])
    ensures Level(baseline, log + [w]) == if w.Advanced? then w.date else Level(baseline, log)
  {
    var grown := log + [w];
    assert grown[..|log|] == log;
    forall i | 0 <= i < |grown| ensures Justified(baseline, grown[..i], grown[i]) {
      if i < |log| { assert grown[..i] == log[..i]; }
    }
  }

  lemma {:induction false} LevelNeverFalls(baseline: Date, log: seq<Write>, i: nat)
    requires WellOrdered(baseline, log) && i <= |log|
    ensures baseline <= Level(baseline, log[..i]) <= Level(baseline, log)
    decreases |log|
  {
    if |log| > 0 {
      var rest := log[..|log| - 1];
      assert forall k :: 0 <= k <= |rest| ==> rest[..k] == log[..k];
      LevelNeverFalls(baseline, rest, if i < |log| then i else 0);
      if i == |log| { assert log[..i] == log; } else { assert rest[..i] == log[..i]; }
      assert Justified(baseline, rest, log[|log| - 1]);
    }
  }

  /** The watermark moves by single days, and each move is one write. */
  lemma OneDayAtATime(baseline: Date, log: seq<Write>, i: nat)
    requires WellOrdered(baseline, log) && i < |log|
    ensures Level(baseline, log[..i + 1]) == Level(baseline, log[..i]) + if log[i].Advanced? then 1 else 0
  {
    assert log[..i + 1][..i] == log[..i];
    assert Justified(baseline, log[..i], log[i]);
  }

  /** The log has advanced to every date up to its level. */
  lemma {:induction false} AdvancedToEach(baseline: Date, log: seq<Write>, d: Date) returns (i: nat)
    requires WellOrdered(baseline, log) && baseline < d <= Level(baseline, log)
    ensures i < |log| && log[i] == Advanced(d)
    decreases |log|
  {
    var last := |log| - 1;
    var rest := log[..last];
    assert forall k :: 0 <= k <= |rest| ==> rest[..k] == log[..k];
    assert Justified(baseline, rest, log[last]);
    if log[last] == Advanced(d) {
      i := last;
    } else {
      i := AdvancedToEach(baseline, rest, d);
    }
  }

  /** Every date up to the watermark had CRM, Ops and ERP applied in that order, and the run closed,
      before the watermark reached it. */
  lemma DatesAreAppliedInOrder(baseline: Date, log: seq<Write>, d: Date)
      returns (crm: nat, ops: nat, erp: nat, closed: nat, advanced: nat)
    requires WellOrdered(baseline, log) && baseline < d <= Level(baseline, log)
    ensures crm < ops < erp < closed < advanced < |log|
    ensures log[crm] == Marked(d, Crm) && log[ops] == Marked(d, Ops) && log[erp] == Marked(d, Erp)
    ensures log[closed] == Closed(d) && log[advanced] == Advanced(d)
  {
    hide WellOrdered, Level, Justified;
    advanced := AdvancedToEach(baseline, log, d);
    closed := WrittenBefore(baseline, log, advanced, Closed(d));
    erp := WrittenBefore(baseline, log, closed, Marked(d, Erp));
    ops := WrittenBefore(baseline, log, erp, Marked(d, Ops));
    crm := WrittenBefore(baseline, log, ops, Marked(d, Crm));
  }

  /** What a write needs to have been written before it. */
  predicate Needs(w: Write, earlier: Write) {
    match (w, earlier)
    case (Advanced(d), Closed(e)) => d == e
    case (Closed(d), Marked(e, _)) => d == e
    case (Marked(d, s), Marked(e, t)) => d == e && Before(t, s)
    case _ => false
  }

  lemma WrittenBefore(baseline: Date, log: seq<Write>, i: nat, earlier: Write) returns (j: nat)
    requires WellOrdered(baseline, log) && i < |log| && Needs(log[i], earlier)
    ensures j < i && log[j] == earlier
  {
    assert Justified(baseline, log[..i], log[i]);
    hide WellOrdered, Level;
    assert earlier in log[..i];
    j :| 0 <= j < |log[..i]| && log[..i][j] == earlier;
  }

  /** No date beyond the next one is ever written to. */
  lemma NothingAhead(baseline: Date, log: seq<Write>, i: nat)
    requires WellOrdered(baseline, log) && i < |log|
    ensures log[i].date <= Level(baseline, log) + 1
  {
    LevelNeverFalls(baseline, log, i);
    assert Justified(baseline, log[..i], log[i]);
  }

  type Runs = map<Date, RunState>

  /** The three source runs of a date; claiming inserts them together. */
  datatype SourceRuns = SourceRuns(crm: SourceState, ops: SourceState, erp: SourceState) {
    function Of(s: Source): SourceState {
      match s
      case Crm => crm
      case Ops => ops
      case Erp => erp
    }

    function With(s: Source, state: SourceState): SourceRuns {
      match s
      case Crm => this.(crm := state)
      case Ops => this.(ops := state)
      case Erp => this.(erp := state)
    }
  }

  type Sources = map<Date, SourceRuns>

  const UNAPPLIED := SourceRuns(Pending, Pending, Pending)

  predicate IsApplied(sources: Sources, d: Date, s: Source) {
    d in sources && sources[d].Of(s).Applied?
  }

  predicate IsPending(sources: Sources, d: Date, s: Source) {
    d in sources && sources[d].Of(s).Pending?
  }

  predicate AllApplied(sources: Sources, d: Date) {
    IsApplied(sources, d, Crm) && IsApplied(sources, d, Ops) && IsApplied(sources, d, Erp)
  }

  /** No source run on record for `d` is pending; there may be none on record at all. */
  predicate NonePending(sources: Sources, d: Date) {
    !IsPending(sources, d, Crm) && !IsPending(sources, d, Ops) && !IsPending(sources, d, Erp)
  }

  /** The tables agree with the log, and the log with the rules. */
  ghost predicate Coherent(baseline: Date, watermark: Date, runs: Runs, sources: Sources, log: seq<Write>) {
    && WellOrdered(baseline, log) && watermark == Level(baseline, log)
    && sources.Keys == runs.Keys
    && (forall d :: d in runs ==> Claimed(d) in log && d <= watermark + 1)
    && (forall d, s :: IsApplied(sources, d, s) ==> Marked(d, s) in log)
    && (forall d :: baseline < d <= watermark ==> d in runs && runs[d].Completed? && AllApplied(sources, d))
  }

  lemma ClaimKeepsCoherent(
    baseline: Date, watermark: Date, runs: Runs, sources: Sources, log: seq<Write>, d: Date, run: RunState)
    requires Coherent(baseline, watermark, runs, sources, log) && d == watermark + 1 && d !in runs
    ensures Coherent(baseline, watermark, runs[d := run], sources[d := UNAPPLIED], log + [Claimed(d)])
  {
    hide WellOrdered, Level;
    var sources' := sources[d := UNAPPLIED];
    WellOrderedGrows(baseline, log, Claimed(d));
    assert forall w :: w in log ==> w in log + [Claimed(d)];
    forall e | baseline < e <= watermark ensures AllApplied(sources', e) {
      assert AllApplied(sources, e);
    }
  }

  predicate CanMark(sources: Sources, d: Date, source: Source) {
    && d in sources
    && (Before(Crm, source) ==> !IsPending(sources, d, Crm))
    && (Before(Ops, source) ==> !IsPending(sources, d, Ops))
  }

  lemma MarkKeepsCoherent(
    baseline: Date, watermark: Date, runs: Runs, sources: Sources, log: seq<Write>, d: Date, source: Source,
        counts: SourceState)
    requires Coherent(baseline, watermark, runs, sources, log) && d == watermark + 1
    requires CanMark(sources, d, source) && counts.Applied?
    ensures Coherent(baseline, watermark, runs, sources[d := sources[d].With(source, counts)],
              log + [Marked(d, source)])
  {
    hide WellOrdered, Level;
    var sources' := sources[d := sources[d].With(source, counts)];
    var log' := log + [Marked(d, source)];
    forall t | Before(t, source) ensures Marked(d, t) in log {
      assert IsApplied(sources, d, t);
    }
    WellOrderedGrows(baseline, log, Marked(d, source));
    assert forall w :: w in log ==> w in log';
    forall e, s | IsApplied(sources', e, s) ensures Marked(e, s) in log' {
      if e != d || s != source { assert IsApplied(sources, e, s); }
    }
    forall e | baseline < e <= watermark ensures AllApplied(sources', e) {
      assert AllApplied(sources, e);
    }
  }

  lemma AllAreApplied(sources: Sources, d: Date)
    requires d in sources && NonePending(sources, d)
    ensures AllApplied(sources, d) && forall t :: IsApplied(sources, d, t)
  {
    forall t ensures IsApplied(sources, d, t) {
      assert t == Crm || t == Ops || t == Erp;
    }
  }

  function Close(run: RunState): RunState { Completed(run.breach) }

  lemma CloseKeepsCoherent(baseline: Date, watermark: Date, runs: Runs, sources: Sources, log: seq<Write>, d: Date)
    requires Coherent(baseline, watermark, runs, sources, log) && d == watermark + 1
    requires d in runs && NonePending(sources, d)
    ensures AllApplied(sources, d)
    ensures Coherent(baseline, watermark, runs[d := Close(runs[d])], sources, log + [Closed(d)])
  {
    hide WellOrdered, Level;
    assert d in sources;
    AllAreApplied(sources, d);
    forall t ensures Marked(d, t) in log { assert IsApplied(sources, d, t); }
    WellOrderedGrows(baseline, log, Closed(d));
    assert forall w :: w in log ==> w in log + [Closed(d)];
  }

  lemma AdvanceKeepsCoherent(baseline: Date, watermark: Date, runs: Runs, sources: Sources, log: seq<Write>, d: Date)
    requires Coherent(baseline, watermark, runs, sources, log) && d == watermark + 1
    requires d in runs && runs[d].Completed? && AllApplied(sources, d) && Closed(d) in log
    ensures Coherent(baseline, d, runs, sources, log + [Advanced(d)])
  {
    hide WellOrdered, Level;
    AllAreApplied(sources, d);
    forall t ensures Marked(d, t) in log { assert IsApplied(sources, d, t); }
    WellOrderedGrows(baseline, log, Advanced(d));
    assert forall w :: w in log ==> w in log + [Advanced(d)];
  }

  class SimulationStateStore {
    /** The policy's pick of breach dates. */
    const breach: Date -> bool
    var baseline: Option<Date>
    var watermark: Option<Date>
    var runs: Runs
    var sources: Sources
    ghost var log: seq<Write>

    ghost predicate Valid()
      reads this
    {
      && baseline.Some? && watermark.Some? && Coherent(baseline.value, watermark.value, runs, sources, log)
      && Flagged()
    }

    /** Every run is flagged as the policy has its date. */
    ghost predicate Flagged()
      reads this
    {
      forall d :: d in runs ==> runs[d].breach == breach(d)
    }

    constructor (breach: Date -> bool)
      ensures this.breach == breach
      ensures baseline == None && watermark == None && runs == map[] && sources == map[] && log == []
    {
      this.breach := breach;
      baseline, watermark, runs, sources, log := None, None, map[], map[], [];
    }

    method Initialize(date: Date) returns (r: Result<(), Error>)
      modifies this
      ensures runs == old(runs) && sources == old(sources) && log == old(log)
      ensures watermark == if old(watermark).None? then Some(date) else old(watermark)
      ensures r.Ok? <==> old(baseline).None? || old(baseline) == Some(date)
      ensures baseline == if old(baseline).None? then Some(date) else old(baseline)
      ensures old(baseline).None? && old(watermark).None? && log == [] && runs == map[] && sources == map[] ==> Valid()
      ensures old(Valid()) ==> Valid()
    {
      if watermark.None? { watermark := Some(date); }
      if baseline.None? {
        baseline := Some(date);
      } else if baseline != Some(date) {
        return Err(OtherBaseline);
      }
      return Ok(());
    }

    /** The dates a catch-up run visits. */
    method DueDates(through: Date) returns (dates: seq<Date>)
      requires watermark.Some?
      ensures |dates| == if through <= watermark.value then 0 else through - watermark.value
      ensures forall i :: 0 <= i < |dates| ==> dates[i] == watermark.value + 1 + i
    {
      var current := watermark.value;
      if through <= current { return []; }
      dates := seq(through - current, i => current + 1 + i);
    }

    /** Create or reclaim a date that is not complete.  Only dates beyond the next one are refused. */
    method ClaimRun(d: Date) returns (r: Result<bool, Error>)
      requires watermark.Some?
      modifies this`runs, this`sources, this`log
      ensures r.Err? <==> d > watermark.value + 1
      ensures r.Err? ==> r.error == ClaimedOutOfOrder
      ensures r.Err? || d in old(runs) ==> runs == old(runs) && sources == old(sources) && log == old(log)
      ensures r.Ok? ==> d in runs && (r.value <==> runs[d].InProgress?)
      ensures r.Ok? && d !in old(runs) ==>
        && runs == old(runs)[d := InProgress(breach(d))] && log == old(log) + [Claimed(d)]
        && sources == old(sources)[d := UNAPPLIED]
      ensures old(Valid()) && d == watermark.value + 1 ==> Valid()
    {
      hide Coherent;
      if d > watermark.value + 1 { return Err(ClaimedOutOfOrder); }
      if d in runs && runs[d].Completed? { return Ok(false); }
      if d !in runs {
        if Valid() && d == watermark.value + 1 {
          ClaimKeepsCoherent(baseline.value, watermark.value, runs, sources, log, d, InProgress(breach(d)));
        }
        runs := runs[d := InProgress(breach(d))];
        sources := sources[d := UNAPPLIED];
        log := log + [Claimed(d)];
      }
      return Ok(true);
    }

    method SourceRunState(d: Date, source: Source) returns (r: Result<SourceState, Error>)
      ensures r.Ok? <==> d in sources
      ensures r.Ok? ==> r.value == sources[d].Of(source)
    {
      if d !in sources { return Err(NotClaimed); }
      return Ok(sources[d].Of(source));
    }

    method MarkSourceApplied(d: Date, source: Source, generated: nat, applied: nat) returns (r: Result<(), Error>)
      modifies this`sources, this`log
      ensures r.Ok? <==> CanMark(old(sources), d, source)
      ensures r.Ok? ==>
        sources == old(sources)[d := old(sources)[d].With(source, Applied(generated, applied))]
            && log == old(log) + [Marked(d, source)]
      ensures r.Err? ==> sources == old(sources) && log == old(log)
      ensures old(Valid()) && d == watermark.value + 1 ==> Valid()
    {
      hide Coherent;
      if d !in sources { return Err(NotClaimed); }
      if (Before(Crm, source) && IsPending(sources, d, Crm)) || (Before(Ops, source) && IsPending(sources, d, Ops)) {
        return Err(AppliedOutOfOrder);
      }
      if Valid() && d == watermark.value + 1 {
        MarkKeepsCoherent(baseline.value, watermark.value, runs, sources, log, d, source, Applied(generated, applied));
      }
      sources := sources[d := sources[d].With(source, Applied(generated, applied))];
      log := log + [Marked(d, source)];
      return Ok(());
    }

    /** Close the run, then advance the watermark: two writes, and a crash can fall between them. */
    method CompleteRun(d: Date, budget: nat) returns (r: Result<bool, Error>)
      requires watermark.Some?
      modifies this`runs, this`watermark, this`log
      ensures r.Ok? <==> d == old(watermark).value + 1 && NonePending(sources, d)
      ensures r.Err? || budget == 0 ==> runs == old(runs) && watermark == old(watermark) && log == old(log)
      ensures r.Ok? ==> (r.value <==> budget >= 2) && watermark == Some(if budget >= 2 then d else d - 1)
      ensures r.Ok? && budget >= 1 ==>
        runs == if d in old(runs) then old(runs)[d := Close(old(runs)[d])] else old(runs)
      ensures old(Valid()) && d in old(runs) ==> Valid() && (r.Ok? ==> AllApplied(sources, d))
    {
      hide Coherent, AllApplied;
      if d != watermark.value + 1 { return Err(CompletedOutOfOrder); }
      if !NonePending(sources, d) { return Err(SourcesPending); }
      ghost var sound := Valid() && d in runs;
      if sound { CloseKeepsCoherent(baseline.value, watermark.value, runs, sources, log, d); }
      if budget == 0 { return Ok(false); }
      if d in runs { runs := runs[d := Close(runs[d])]; }
      log := log + [Closed(d)];
      if budget == 1 { return Ok(false); }
      if sound { AdvanceKeepsCoherent(baseline.value, watermark.value, runs, sources, log, d); }
      watermark := Some(d);
      log := log + [Advanced(d)];
      return Ok(true);
    }
  }

  /** Completing is guarded by the source runs on record only: a date never claimed has none, and
      completing it advances the watermark over a date to which nothing was applied. */
  method CompleteUnclaimed(baseline: Date) returns (state: SimulationStateStore)
    ensures fresh(state) && state.watermark == Some(baseline + 1) && state.runs == map[] && state.sources == map[]
    ensures !AllApplied(state.sources, baseline + 1) && !state.Valid()
  {
    state := new SimulationStateStore(d => false);
    var _ := state.Initialize(baseline);
    var _ := state.CompleteRun(baseline + 1, 2);
  }

  /** So completing keeps the records coherent exactly when the date was claimed before. */
  lemma CompletingNeedsAClaim(baseline: Date, watermark: Date, runs: Runs, sources: Sources, log: seq<Write>, d: Date)
    requires Coherent(baseline, watermark, runs, sources, log) && d == watermark + 1 && NonePending(sources, d)
    ensures Coherent(baseline, d, if d in runs then runs[d := Close(runs[d])] else runs, sources,
              log + [Closed(d)] + [Advanced(d)])
       <==> d in runs
  {
    if d in runs {
      CloseKeepsCoherent(baseline, watermark, runs, sources, log, d);
      AdvanceKeepsCoherent(baseline, watermark, runs[d := Close(runs[d])], sources, log + [Closed(d)], d);
    } else {
      LevelNeverFalls(baseline, log, 0);
    }
  }
}
