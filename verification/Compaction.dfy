/** Compaction of published delta partitions while readers and the publisher keep running.

    The store of one object is a read-only seed file, an optional compacted base and one partition
    per business date.  The compactor works in atomic steps (plan, write the temporary merged file,
    replace the base, unlink one partition at a time) and may crash between any two of them; the
    publisher may add a newer partition between any two of them as well.  Every reachable state
    answers every reader with the newest row per id over the seed and all partitions ever
    published. */
module Compaction {
  import opened Wrappers
  import opened Ordering
  import opened VersionedRows

  type Date = int

  /** The file a merge starts from, chosen when the plan is taken. */
  datatype BaseFile = Seed | Compacted

  /** What the running compactor holds in memory; a crash forgets it. */
  datatype Stage =
    | Idle
    | Planned(base: BaseFile, dates: seq<Date>)
    | Written(dates: seq<Date>, merged: File)
    | Removing(todo: seq<Date>)

  /** `published` and `folded` are bookkeeping no code reads: every partition ever published, and
      the newest date the compacted base covers (meaningful only once there is one). */
  datatype World = World(
    seed: File,
    compacted: Option<File>,
    parts: map<Date, File>,
    stage: Stage,
    published: map<Date, File>,
    folded: Date)

  datatype Action =
    | TakePlan
    | WriteMerged(rows: File)
    | ReplaceBase
    | UnlinkNext
    | Finish
    | Crash
    | Publish(date: Date, file: File)

  function RowsOf(files: map<Date, File>): set<Row> {
    set d, r | d in files && r in files[d] :: r
  }

  function RowsThrough(seed: File, published: map<Date, File>, k: Date): set<Row> {
    Elements(seed) + set d, r | d in published && d <= k && r in published[d] :: r
  }

  /** Every row the object has ever been given. */
  function AllRows(w: World): set<Row> {
    Elements(w.seed) + RowsOf(w.published)
  }

  predicate Older(f: File, g: File) {
    forall r, s :: r in f && s in g && r.id == s.id ==> r.version < s.version
  }

  /** The publisher's discipline: one row per id in a file, versions grow with the business date. */
  ghost predicate WellVersioned(seed: File, published: map<Date, File>) {
    && OneRowPerId(seed)
    && (forall d :: d in published ==> OneRowPerId(published[d]) && Older(seed, published[d]))
    && (forall d, e :: d in published && e in published && d < e ==> Older(published[d], published[e]))
  }

  /* ---- Readers ---- */

  function EffectiveBase(w: World): File {
    if w.compacted.Some? then w.compacted.value else w.seed
  }

  /** fakeforce/engine.py: rank the deltas, let them shadow the base whatever its versions are. */
  ghost predicate EngineReads(w: World, latest: File, out: File) {
    if |w.parts| == 0 then multiset(out) == multiset(EffectiveBase(w))
    else
      && NewestPerId(RowsOf(w.parts), latest)
      && multiset(out) == multiset(WithoutIds(EffectiveBase(w), Ids(latest)) + latest)
  }

  /** Rows of every file below the delta root: the glob takes the compacted file for one more delta. */
  function DeltaTreeRows(w: World): set<Row> {
    RowsOf(w.parts) + if w.compacted.Some? then Elements(w.compacted.value) else {}
  }

  /** simulator/crm_snapshot.py: the same shape, but over the seed and the whole delta tree. */
  ghost predicate SimulatorReads(w: World, latest: File, out: File) {
    if |w.parts| == 0 && w.compacted.None? then multiset(out) == multiset(w.seed)
    else
      && NewestPerId(DeltaTreeRows(w), latest)
      && multiset(out) == multiset(WithoutIds(w.seed, Ids(latest)) + latest)
  }

  function WithIds(rows: set<Row>, ids: set<string>): set<Row> {
    set r | r in rows && r.id in ids
  }

  /** simulator/crm_storage.py: rank the seed and the whole delta tree together, for some ids. */
  ghost predicate PublisherReads(w: World, ids: set<string>, out: File) {
    NewestPerId(WithIds(Elements(w.seed) + DeltaTreeRows(w), ids), out)
  }

  /* ---- Steps ---- */

  /** The sorted tuple the catalog lists: partition directories are named by ISO date. */
  function Listing(parts: map<Date, File>): seq<Date> {
    SortedInts(parts.Keys)
  }

  function Last(dates: seq<Date>): Date
    requires |dates| > 0
  {
    dates[|dates| - 1]
  }

  function BaseRows(w: World, base: BaseFile): set<Row> {
    if base.Compacted? && w.compacted.Some? then Elements(w.compacted.value) else Elements(w.seed)
  }

  function PlannedRows(w: World, base: BaseFile, dates: seq<Date>): set<Row> {
    BaseRows(w, base) + set d, r | d in dates && d in w.parts && r in w.parts[d] :: r
  }

  ghost predicate CanPublish(w: World, date: Date, file: File) {
    && (forall d :: d in w.published ==> d < date)
    && WellVersioned(w.seed, w.published[date := file])
  }

  ghost predicate Next(w: World, a: Action, w': World) {
    match a
    case TakePlan =>
      && w.stage.Idle? && |w.parts| > 0
      && w' == w.(stage := Planned(if w.compacted.Some? then Compacted else Seed, Listing(w.parts)))
    case WriteMerged(rows) =>
      && w.stage.Planned?
      && NewestPerId(PlannedRows(w, w.stage.base, w.stage.dates), rows)
      && w' == w.(stage := Written(w.stage.dates, rows))
    case ReplaceBase =>
      && w.stage.Written? && |w.stage.dates| > 0
      && w' == w.(compacted := Some(w.stage.merged), folded := Last(w.stage.dates),
                  stage := Removing(w.stage.dates))
    case UnlinkNext =>
      && w.stage.Removing? && |w.stage.todo| > 0
      && w' == w.(parts := w.parts - {w.stage.todo[0]}, stage := Removing(w.stage.todo[1..]))
    case Finish =>
      w.stage == Removing([]) && w' == w.(stage := Idle)
    case Crash =>
      w' == w.(stage := Idle)
    case Publish(date, file) =>
      && CanPublish(w, date, file)
      && w' == w.(parts := w.parts[date := file], published := w.published[date := file])
  }

  ghost predicate Init(w: World) {
    && w.stage.Idle? && w.compacted.None?
    && w.parts == w.published
    && WellVersioned(w.seed, w.published)
  }

  ghost predicate Run(ws: seq<World>, acts: seq<Action>) {
    && |ws| == |acts| + 1
    && Init(ws[0])
    && forall i :: 0 <= i < |acts| ==> Next(ws[i], acts[i], ws[i + 1])
  }

  /* ---- The invariant ---- */

  /** Partitions disappear oldest first: no partition outlives a newer one. */
  ghost predicate OnlyOldestRemoved(parts: map<Date, File>, published: map<Date, File>) {
    && (forall d :: d in parts ==> d in published && parts[d] == published[d])
    && (forall d, e :: d in parts && e in published && d < e ==> e in parts)
  }

  /** A partition is gone only after a base covering it was put in place. */
  ghost predicate RemovedAreFolded(
    seed: File, compacted: Option<File>, parts: map<Date, File>, published: map<Date, File>, folded: Date)
  {
    && (compacted.None? ==> parts.Keys == published.Keys)
    && (compacted.Some? ==>
          && folded in published
          && NewestPerId(RowsThrough(seed, published, folded), compacted.value)
          && forall d :: d in published && d !in parts ==> d <= folded)
  }

  /** `dates` is the oldest stretch of the remaining partitions and reaches at least the old base. */
  ghost predicate PlanCovers(
    compacted: Option<File>, parts: map<Date, File>, folded: Date, dates: seq<Date>)
  {
    && |dates| > 0 && StrictlySortedBy(dates, Self)
    && (forall d :: d in dates ==> d in parts && d <= Last(dates))
    && (forall d :: d in parts && d <= Last(dates) ==> d in dates)
    && (compacted.Some? ==> folded <= Last(dates))
  }

  ghost predicate StageOk(w: World) {
    match w.stage
    case Idle => true
    case Planned(base, dates) =>
      && PlanCovers(w.compacted, w.parts, w.folded, dates)
      && base == if w.compacted.Some? then Compacted else Seed
    case Written(dates, merged) =>
      && PlanCovers(w.compacted, w.parts, w.folded, dates)
      && NewestPerId(RowsThrough(w.seed, w.published, Last(dates)), merged)
    case Removing(todo) =>
      && w.compacted.Some? && StrictlySortedBy(todo, Self)
      && (forall d :: d in todo ==> d in w.parts && d <= w.folded)
      && (forall d :: d in w.parts && d <= w.folded ==> d in todo)
  }

  ghost predicate Inv(w: World) {
    && WellVersioned(w.seed, w.published)
    && OnlyOldestRemoved(w.parts, w.published)
    && RemovedAreFolded(w.seed, w.compacted, w.parts, w.published, w.folded)
    && StageOk(w)
  }

  lemma PlanKeepsInv(w: World, w': World)
    requires Inv(w) && Next(w, TakePlan, w')
    ensures Inv(w')
  {
    ListingCovers(w.parts);
    FoldedIsListed(w);
    hide Listing, WellVersioned, OnlyOldestRemoved, RemovedAreFolded, PlanCovers;
  }

  /** All partitions, oldest first, end with the newest. */
  lemma ListingCovers(parts: map<Date, File>)
    requires |parts| > 0
    ensures var dates := Listing(parts);
      && |dates| > 0 && StrictlySortedBy(dates, Self) && (forall d :: d in dates <==> d in parts)
      && forall d :: d in parts ==> d <= Last(dates)
  {
    var dates := Listing(parts);
    SortedIntsListsTheSet(parts.Keys);
    assert forall d :: d in dates <==> d in parts.Keys;
    var k := Member(parts.Keys);
    assert k in dates;
    forall d | d in dates ensures d <= Last(dates) {
      var i :| 0 <= i < |dates| && dates[i] == d;
      assert Self(dates[i]) <= Self(dates[|dates| - 1]);
    }
  }

  /** So the plan reaches at least as far as the base does. */
  lemma FoldedIsListed(w: World)
    requires Inv(w) && |w.parts| > 0
    ensures |Listing(w.parts)| > 0 && PlanCovers(w.compacted, w.parts, w.folded, Listing(w.parts))
  {
    ListingCovers(w.parts);
    hide Listing, WellVersioned;
    var last := Last(Listing(w.parts));
    assert last in w.parts;
    assert w.compacted.Some? && last < w.folded ==> w.folded in w.parts;
  }

  /** The merge of the planned files is the fold of everything published through the last of them,
      although the base may already hold rows of partitions that a crash left behind. */
  lemma MergeFoldsThroughPlan(w: World, base: BaseFile, dates: seq<Date>, rows: File)
    requires Inv(w) && w.stage == Planned(base, dates)
    requires NewestPerId(PlannedRows(w, base, dates), rows)
    ensures NewestPerId(RowsThrough(w.seed, w.published, Last(dates)), rows)
  {
    var input, all := PlannedRows(w, base, dates), RowsThrough(w.seed, w.published, Last(dates));
    assert input <= all by { PlannedRowsArePublished(w, base, dates); }
    forall s | s in all ensures Dominated(s, input) {
      PlannedRowDominates(w, base, dates, s);
    }
    DominatingSubsetResolvesAlike(input, all, rows);
  }

  /** Some row of `rows` has the id of `s` and is at least as new. */
  ghost predicate Dominated(s: Row, rows: set<Row>) {
    exists t :: t in rows && t.id == s.id && s.version <= t.version
  }

  lemma DominatingSubsetResolvesAlike(input: set<Row>, all: set<Row>, out: File)
    requires input <= all && (forall s :: s in all ==> Dominated(s, input))
    requires NewestPerId(input, out)
    ensures NewestPerId(all, out)
  {
    forall r, s | r in out && s in all && r.id == s.id ensures s.version <= r.version {
      assert Dominated(s, input);
      var t :| t in input && t.id == s.id && s.version <= t.version;
    }
    forall s | s in all ensures s.id in Ids(out) {
      assert Dominated(s, input);
      var t :| t in input && t.id == s.id && s.version <= t.version;
    }
  }

  lemma PlannedRowsArePublished(w: World, base: BaseFile, dates: seq<Date>)
    requires Inv(w) && w.stage == Planned(base, dates)
    ensures PlannedRows(w, base, dates) <= RowsThrough(w.seed, w.published, Last(dates))
  {
    var all := RowsThrough(w.seed, w.published, Last(dates));
    if w.compacted.Some? {
      assert RowsThrough(w.seed, w.published, w.folded) <= all;
    }
    assert BaseRows(w, base) <= all;
  }

  lemma PlannedRowDominates(w: World, base: BaseFile, dates: seq<Date>, s: Row)
    requires Inv(w) && w.stage == Planned(base, dates)
    requires s in RowsThrough(w.seed, w.published, Last(dates))
    ensures Dominated(s, PlannedRows(w, base, dates))
  {
    if d :| d in w.published && d <= Last(dates) && s in w.published[d] && d in w.parts {
      assert d in dates;
      assert s in PlannedRows(w, base, dates);
    } else if w.compacted.None? {
      assert s in w.seed;
      assert s in PlannedRows(w, base, dates);
    } else {
      assert s in RowsThrough(w.seed, w.published, w.folded);
      assert s.id in Ids(w.compacted.value);
      var t :| t in w.compacted.value && t.id == s.id;
      assert t in PlannedRows(w, base, dates);
    }
  }

  lemma ReplaceKeepsInv(w: World, w': World)
    requires Inv(w) && Next(w, ReplaceBase, w')
    ensures Inv(w')
  {
    var dates := w.stage.dates;
    assert dates[0] in dates && Last(dates) in dates;
    assert forall d :: d in w.published && d !in w.parts ==> d <= dates[0];
  }

  /** The step that needs the removal order: the partition unlinked is the oldest one left. */
  lemma UnlinkKeepsInv(w: World, w': World)
    requires Inv(w) && Next(w, UnlinkNext, w')
    ensures Inv(w')
  {
    var todo := w.stage.todo;
    assert todo[0] in todo;
    forall d | d in todo ensures d == todo[0] || (todo[0] < d && d in todo[1..]) {
      var i :| 0 <= i < |todo| && todo[i] == d;
      if i > 0 {
        assert Self(todo[0]) < Self(todo[i]);
        assert todo[1..][i - 1] == d;
      }
    }
    forall d | d in todo[1..] ensures d in todo && todo[0] < d {
      var i :| 0 <= i < |todo| - 1 && todo[1..][i] == d;
      assert Self(todo[0]) < Self(todo[i + 1]);
    }
  }

  lemma PastRowsUnchanged(seed: File, published: map<Date, File>, date: Date, file: File, k: Date)
    requires k < date
    ensures RowsThrough(seed, published[date := file], k) == RowsThrough(seed, published, k)
  {
    var published' := published[date := file];
    forall d | d <= k ensures d in published' <==> d in published {}
    forall d | d <= k && d in published ensures published'[d] == published[d] {}
  }

  lemma PublishKeepsInv(w: World, date: Date, file: File, w': World)
    requires Inv(w) && Next(w, Publish(date, file), w')
    ensures Inv(w')
  {
    assert OnlyOldestRemoved(w'.parts, w'.published);
    if w.compacted.Some? {
      PastRowsUnchanged(w.seed, w.published, date, file, w.folded);
    }
    match w.stage
    case Planned(_, dates) => assert Last(dates) in dates;
    case Written(dates, _) =>
      assert Last(dates) in dates;
      PastRowsUnchanged(w.seed, w.published, date, file, Last(dates));
    case _ =>
  }

  lemma StepKeepsInv(w: World, a: Action, w': World)
    requires Inv(w) && Next(w, a, w')
    ensures Inv(w')
  {
    match a
    case TakePlan => PlanKeepsInv(w, w');
    case WriteMerged(rows) => MergeFoldsThroughPlan(w, w.stage.base, w.stage.dates, rows);
    case ReplaceBase => ReplaceKeepsInv(w, w');
    case UnlinkNext => UnlinkKeepsInv(w, w');
    case Finish =>
    case Crash =>
    case Publish(date, file) => PublishKeepsInv(w, date, file, w');
  }

  lemma {:induction false} RunKeepsInv(ws: seq<World>, acts: seq<Action>, i: nat)
    requires Run(ws, acts) && i < |ws|
    ensures Inv(ws[i])
  {
    if i > 0 {
      RunKeepsInv(ws, acts, i - 1);
      StepKeepsInv(ws[i - 1], acts[i - 1], ws[i]);
    }
  }
}
