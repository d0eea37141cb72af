/** The compactor and the engine's reader as they run, over one object's files.

    Each durable write is one step of the machine in `Compaction`; the ghost log records the steps,
    so what is proved about runs holds at every instant of these methods.  `budget` is the number of
    steps the process survives: running out of it is a crash at that point. */
module DeltaCompactor {
  import opened Wrappers
  import opened Ordering
  import opened VersionedRows
  import opened Compaction
  import CompactionReaders

  datatype CompactionResult = CompactionResult(partitionsMerged: nat, rowsWritten: nat, removed: nat)

  /** `dates` names every partition present and no other. */
  predicate Lists(dates: seq<Date>, parts: map<Date, File>) {
    && (forall i :: 0 <= i < |dates| ==> dates[i] in parts)
    && (forall d :: d in parts ==> d in dates)
  }

  lemma UnlinkHead(dates: seq<Date>, i: nat, parts: map<Date, File>)
    requires i < |dates| && StrictlySortedBy(dates, Self) && Lists(dates[i..], parts)
    ensures dates[i] in parts && Lists(dates[i + 1..], parts - {dates[i]})
  {
    var rest := dates[i + 1..];
    assert dates[i..][0] == dates[i];
    forall k | 0 <= k < |rest| ensures rest[k] in parts && rest[k] != dates[i] {
      assert rest[k] == dates[i..][k + 1];
      assert Self(dates[i]) < Self(dates[i + 1 + k]);
    }
    forall d | d in parts && d != dates[i] ensures d in rest {
      assert d in dates[i..];
      var k :| 0 <= k < |dates[i..]| && dates[i..][k] == d;
      assert rest[k - 1] == d;
    }
  }

  lemma NothingListed(dates: seq<Date>, parts: map<Date, File>)
    requires Lists(dates, parts) && |dates| == 0
    ensures |parts| == 0
  {
    if |parts| > 0 {
      var d := Member(parts.Keys);
    }
  }

  function Concat(parts: map<Date, File>, dates: seq<Date>): File
    requires forall i :: 0 <= i < |dates| ==> dates[i] in parts
  {
    if |dates| == 0 then [] else parts[dates[0]] + Concat(parts, dates[1..])
  }

  lemma {:induction false} ConcatHasAllRows(parts: map<Date, File>, dates: seq<Date>)
    requires forall i :: 0 <= i < |dates| ==> dates[i] in parts
    ensures Elements(Concat(parts, dates)) == set d, r | d in dates && d in parts && r in parts[d] :: r
  {
    if |dates| > 0 {
      ConcatHasAllRows(parts, dates[1..]);
      assert forall d :: d in dates <==> d == dates[0] || d in dates[1..];
      var rows := set d, r | d in dates && d in parts && r in parts[d] :: r;
      var rest := set d, r | d in dates[1..] && d in parts && r in parts[d] :: r;
      assert rows == Elements(parts[dates[0]]) + rest;
    }
  }

  lemma ListingHasAllRows(parts: map<Date, File>)
    ensures forall i :: 0 <= i < |Listing(parts)| ==> Listing(parts)[i] in parts
    ensures Elements(Concat(parts, Listing(parts))) == RowsOf(parts)
  {
    var dates := Listing(parts);
    SortedIntsListsTheSet(parts.Keys);
    assert forall d :: d in dates <==> d in parts.Keys;
    ConcatHasAllRows(parts, dates);
    hide Concat, Listing;
    assert RowsOf(parts) == set d, r | d in dates && d in parts && r in parts[d] :: r;
  }

  /** The seed, the compacted file and the partition files of one object. */
  class Store {
    const seed: File
    var compacted: Option<File>
    var parts: map<Date, File>

    ghost var published: map<Date, File>
    ghost var folded: Date
    ghost var worlds: seq<World>
    ghost var actions: seq<Action>

    ghost function Now(stage: Stage): World
      reads this
    {
      World(seed, compacted, parts, stage, published, folded)
    }

    /** The log is a run that ends here, with the process at `stage`. */
    ghost predicate LoggedUpTo(stage: Stage)
      reads this
    {
      Run(worlds, actions) && worlds[|worlds| - 1] == Now(stage)
    }

    ghost predicate Valid()
      reads this
    {
      LoggedUpTo(Idle)
    }

    constructor (seed: File, parts: map<Date, File>)
      requires WellVersioned(seed, parts)
      ensures Valid() && this.parts == parts && compacted == None && this.seed == seed
      ensures published == parts
    {
      this.seed, this.parts, this.compacted := seed, parts, None;
      this.published, this.folded := parts, 0;
      this.worlds, this.actions := [World(seed, None, parts, Idle, parts, 0)], [];
    }

    ghost method Log(a: Action, stage: Stage)
      requires Run(worlds, actions) && Next(worlds[|worlds| - 1], a, Now(stage))
      modifies this`worlds, this`actions
      ensures LoggedUpTo(stage)
      ensures worlds == old(worlds) + [Now(stage)] && actions == old(actions) + [a]
    {
      worlds, actions := worlds + [Now(stage)], actions + [a];
    }

    method Publish(date: Date, file: File)
      requires Valid() && CanPublish(Now(Idle), date, file)
      modifies this
      ensures Valid() && compacted == old(compacted)
      ensures parts == old(parts)[date := file] && published == old(published)[date := file]
      ensures old(worlds) <= worlds
    {
      parts := parts[date := file];
      published := published[date := file];
      Log(Action.Publish(date, file), Idle);
    }

    method Compact(budget: nat) returns (finished: bool, result: CompactionResult)
      requires Valid()
      modifies this
      ensures Valid() && old(worlds) <= worlds && published == old(published)
      ensures !finished ==> budget < |old(parts)| + 3
      ensures finished && |old(parts)| == 0 ==>
        compacted == old(compacted) && parts == old(parts) && result == CompactionResult(0, 0, 0)
      ensures finished && |old(parts)| > 0 ==>
        && |parts| == 0 && compacted.Some?
        && NewestPerId(Elements(old(EffectiveBase(Now(Idle)))) + old(RowsOf(parts)), compacted.value)
        && result == CompactionResult(|old(parts)|, |compacted.value|, |old(parts)|)
    {
      finished, result := true, CompactionResult(0, 0, 0);
      var dates := Plan();
      if |dates| == 0 { return; }
      if budget == 0 { finished := Die(PlanStage(dates)); return; }

      var merged := WriteMerged(dates);
      if budget == 1 { finished := Die(Written(dates, merged)); return; }

      ReplaceBase(dates, merged);
      if budget == 2 { finished := Die(Removing(dates)); return; }

      var removed: nat;
      finished, removed := Remove(dates, budget - 3);
      result := CompactionResult(|dates|, |merged|, removed);
    }

    ghost function PlanStage(dates: seq<Date>): Stage
      reads this
    {
      if |dates| == 0 then Idle else Planned(if compacted.Some? then Compacted else Seed, dates)
    }

    /** Snapshots the sorted partition list; with nothing published there is nothing to do. */
    method Plan() returns (dates: seq<Date>)
      requires Valid()
      modifies this`worlds, this`actions
      ensures LoggedUpTo(PlanStage(dates)) && old(worlds) <= worlds
      ensures Lists(dates, parts) && StrictlySortedBy(dates, Self)
      ensures |dates| == |parts|
    {
      dates := Listing(parts);
      SortedIntsListsTheSet(parts.Keys);
      assert |parts.Keys| == |parts|;
      if |dates| > 0 { Log(TakePlan, PlanStage(dates)); }
    }

    /** `os.replace`: the merged file becomes the base in one step. */
    method ReplaceBase(dates: seq<Date>, merged: File)
      requires LoggedUpTo(Written(dates, merged)) && |dates| > 0
      modifies this`compacted, this`folded, this`worlds, this`actions
      ensures LoggedUpTo(Removing(dates)) && old(worlds) <= worlds
      ensures compacted == Some(merged)
    {
      compacted := Some(merged);
      folded := Last(dates);
      Log(Action.ReplaceBase, Removing(dates));
    }

    /** Ranks the base and the planned partitions together into the temporary file. */
    method WriteMerged(dates: seq<Date>) returns (merged: File)
      requires LoggedUpTo(PlanStage(dates)) && |dates| > 0
      requires Lists(dates, parts)
      modifies this`worlds, this`actions
      ensures LoggedUpTo(Written(dates, merged)) && old(worlds) <= worlds
      ensures NewestPerId(Elements(EffectiveBase(Now(Idle))) + RowsOf(parts), merged)
    {
      var input := (if compacted.Some? then compacted.value else seed) + Concat(parts, dates);
      merged := NewestRows(input);
      NewestRowsIsNewestPerId(input);
      ConcatHasAllRows(parts, dates);
      assert Elements(Concat(parts, dates)) == RowsOf(parts);
      assert Elements(input) == Elements(EffectiveBase(Now(Idle))) + RowsOf(parts);
      assert PlannedRows(Now(PlanStage(dates)), PlanStage(dates).base, dates) == Elements(input);
      Log(Action.WriteMerged(merged), Written(dates, merged));
    }

    /** Unlinks the merged partitions in the order of the sorted listing. */
    method Remove(dates: seq<Date>, budget: nat) returns (finished: bool, removed: nat)
      requires LoggedUpTo(Removing(dates)) && StrictlySortedBy(dates, Self)
      requires Lists(dates, parts)
      modifies this`parts, this`worlds, this`actions
      ensures Valid() && old(worlds) <= worlds
      ensures !finished ==> budget < |dates|
      ensures finished ==> |parts| == 0 && removed == |dates|
    {
      hide Lists, WellVersioned, StrictlySortedBy;
      removed := 0;
      var i := 0;
      assert dates[0..] == dates;
      while i < |dates|
        invariant 0 <= i <= |dates| && removed == i && i <= budget
        invariant LoggedUpTo(Removing(dates[i..])) && old(worlds) <= worlds
        invariant Lists(dates[i..], parts)
      {
        if i == budget { finished := Die(Removing(dates[i..])); return; }
        var path := dates[i];
        assert dates[i..][0] == path && dates[i..][1..] == dates[i + 1..];
        UnlinkHead(dates, i, parts);
        if path in parts {
          parts := parts - {path};
          removed := removed + 1;
        }
        Log(UnlinkNext, Removing(dates[i + 1..]));
        i := i + 1;
      }
      Log(Finish, Idle);
      NothingListed(dates[i..], parts);
      finished := true;
    }

    /** The process dies: what it held in memory is gone, the files stay. */
    method Die(ghost stage: Stage) returns (finished: bool)
      requires LoggedUpTo(stage)
      modifies this`worlds, this`actions
      ensures Valid() && !finished && worlds == old(worlds) + [Now(Idle)]
    {
      Log(Crash, Idle);
      finished := false;
    }

    /** The engine's query: one of three shapes, chosen by what has been published. */
    method Read() returns (rows: File)
      requires Valid()
      ensures NewestPerId(AllRows(Now(Idle)), rows)
    {
      var base := if compacted.Some? then compacted.value else seed;
      ghost var latest: File := [];
      if |parts| == 0 {
        rows := base;
      } else {
        var newest := LatestDelta();
        rows := WithoutIds(base, Ids(newest)) + newest;
        latest := newest;
      }
      ReadIsNewest(latest, rows);
    }

    /** The deltas ranked among themselves. */
    method LatestDelta() returns (newest: File)
      ensures NewestPerId(RowsOf(parts), newest)
    {
      var dates := Listing(parts);
      ListingHasAllRows(parts);
      hide *;
      newest := NewestRows(Concat(parts, dates));
      NewestRowsIsNewestPerId(Concat(parts, dates));
    }

    lemma ReadIsNewest(latest: File, rows: File)
      requires Valid() && EngineReads(Now(Idle), latest, rows)
      ensures NewestPerId(AllRows(Now(Idle)), rows)
    {
      RunKeepsInv(worlds, actions, |worlds| - 1);
      CompactionReaders.EngineReadsNewest(Now(Idle), latest, rows);
    }

    lemma AnswersAreOne(a: File, b: File)
      requires Valid()
      requires NewestPerId(AllRows(Now(Idle)), a) && NewestPerId(AllRows(Now(Idle)), b)
      ensures multiset(a) == multiset(b)
    {
      RunKeepsInv(worlds, actions, |worlds| - 1);
      CompactionReaders.AllTiesAreIdentical(Now(Idle));
      NewestIsUnique(AllRows(Now(Idle)), a, b);
    }
  }

  /** Crashes at any step and reruns never change what a reader is told, and the first compaction
      that runs to the end leaves no partition behind. */
  method CompactWithCrashes(store: Store, budgets: seq<nat>) returns (before: File, after: File)
    requires store.Valid()
    modifies store
    ensures store.Valid() && store.published == old(store.published)
    ensures NewestPerId(AllRows(store.Now(Idle)), after)
    ensures multiset(before) == multiset(after)
    ensures |store.parts| == 0
  {
    before := store.Read();
    for i := 0 to |budgets|
      invariant store.Valid() && store.published == old(store.published)
    {
      var _, _ := store.Compact(budgets[i]);
    }
    var finished, _ := store.Compact(|store.parts| + 3);
    after := store.Read();
    store.AnswersAreOne(before, after);
  }
}
