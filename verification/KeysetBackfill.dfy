/** The keyset backfill: a table walked in key order, batch by batch, from the last committed key.

    A batch updates its rows and its progress in one transaction, so an interruption loses at most the
    batch under way. */
module KeysetBackfill {
  import opened Wrappers
  import opened Ordering

  datatype Progress = Progress(lastKey: Option<int>, scanned: nat, updated: nat, completed: bool)

  datatype BatchResult = BatchResult(scanned: nat, updated: nat, completed: bool)

  predicate After(last: Option<int>, key: int) {
    last.Some? ==> key > last.value
  }

  /** The keys beyond `last`, and those up to it. */
  function Remaining(keys: set<int>, last: Option<int>): set<int> {
    set k | k in keys && After(last, k)
  }

  function Passed(keys: set<int>, last: Option<int>): set<int> {
    set k | k in keys && !After(last, k)
  }

  /** The first `size` of the remaining keys, in key order. */
  function NextKeys(keys: set<int>, last: Option<int>, size: nat): seq<int> {
    var all := SortedInts(Remaining(keys, last));
    if size <= |all| then all[..size] else all
  }

  /** The page and where it ends: the remaining keys not beyond its last are the page. */
  lemma PageEnds(keys: set<int>, last: Option<int>, size: nat, k: int)
    requires size > 0 && k in Remaining(keys, last)
    ensures var page := NextKeys(keys, last, size); |page| > 0 && (k <= page[|page| - 1] <==> k in Elements(page))
  {
    var all := SortedInts(Remaining(keys, last));
    var page := NextKeys(keys, last, size);
    SortedIntsListsTheSet(Remaining(keys, last));
    assert k in all;
    var i :| 0 <= i < |all| && all[i] == k;
    if i < |page| {
      assert page[i] == k;
      assert i < |page| - 1 ==> Self(all[i]) < Self(all[|page| - 1]);
    } else {
      assert Self(all[|page| - 1]) < Self(all[i]);
      forall j | 0 <= j < |page| ensures page[j] != k { assert Self(all[j]) < Self(all[i]); }
    }
  }

  lemma PageMembers(keys: set<int>, last: Option<int>, size: nat)
    ensures var page := NextKeys(keys, last, size);
      && |page| <= size && NoRepeats(page) && (size > 0 ==> (page == [] <==> Remaining(keys, last) == {}))
      && forall k :: k in Elements(page) ==> k in Remaining(keys, last)
  {
    var all := SortedInts(Remaining(keys, last));
    var page := NextKeys(keys, last, size);
    SortedIntsListsTheSet(Remaining(keys, last));
    StrictlySortedHasNoRepeats(all, Self);
    forall k | k in Elements(page) ensures k in Remaining(keys, last) {
      var i :| 0 <= i < |page| && page[i] == k;
      assert all[i] in Remaining(keys, last);
    }
  }

  /** Committing a page passes exactly its keys. */
  lemma PageIsPassed(keys: set<int>, last: Option<int>, size: nat)
    requires size > 0 && Remaining(keys, last) != {}
    ensures var page := NextKeys(keys, last, size);
      && |page| > 0
      && Passed(keys, Some(page[|page| - 1])) == Passed(keys, last) + Elements(page)
      && Passed(keys, last) !! Elements(page)
  {
    var page := NextKeys(keys, last, size);
    PageMembers(keys, last, size);
    hide NextKeys;
    assert page[|page| - 1] in Elements(page);
    forall k | k in keys ensures k in Passed(keys, Some(page[|page| - 1]))
        <==> k in Passed(keys, last) + Elements(page) {
      if k in Remaining(keys, last) { PageEnds(keys, last, size, k); }
    }
  }

  lemma Split(keys: set<int>, last: Option<int>)
    ensures Passed(keys, last) + Remaining(keys, last) == keys && Passed(keys, last) !! Remaining(keys, last)
    ensures |Passed(keys, last)| + |Remaining(keys, last)| == |keys|
  {
    assert Passed(keys, last) + Remaining(keys, last) == keys;
  }

  lemma PageCounts(keys: set<int>, last: Option<int>, size: nat)
    requires size > 0 && Remaining(keys, last) != {}
    ensures var page := NextKeys(keys, last, size);
      && |page| > 0
      && |Passed(keys, Some(page[|page| - 1]))| == |Passed(keys, last)| + |page|
      && |Remaining(keys, last)| == |Remaining(keys, Some(page[|page| - 1]))| + |page|
  {
    var page := NextKeys(keys, last, size);
    PageIsPassed(keys, last, size);
    PageMembers(keys, last, size);
    NoRepeatsLength(page);
    Split(keys, last);
    Split(keys, Some(page[|page| - 1]));
    hide NextKeys, Passed, Remaining;
  }

  /* ---- Committed batches ---- */

  function Union(batches: seq<seq<int>>): set<int> {
    if |batches| == 0 then {} else Union(batches[..|batches| - 1]) + Elements(batches[|batches| - 1])
  }

  lemma UnionAppend(batches: seq<seq<int>>, page: seq<int>)
    ensures Union(batches + [page]) == Union(batches) + Elements(page)
  {
    assert (batches + [page])[..|batches|] == batches;
  }

  lemma {:induction false} UnionHolds(batches: seq<seq<int>>, i: nat)
    requires i < |batches|
    ensures Elements(batches[i]) <= Union(batches)
  {
    if i < |batches| - 1 { UnionHolds(batches[..|batches| - 1], i); }
  }

  /** How many rows the updates of the batches touched in all. */
  function Touched(changed: seq<int> -> nat, batches: seq<seq<int>>): nat {
    if |batches| == 0 then 0 else Touched(changed, batches[..|batches| - 1]) + changed(batches[|batches| - 1])
  }

  /** Every key up to the last one is in exactly one committed batch, once, and no other key is in any;
      the scanned rows are those keys, the updated ones those the batches touched; completed means that
      no key is left. */
  ghost predicate Walked(
    keys: set<int>, size: nat, changed: seq<int> -> nat, p: Progress, batches: seq<seq<int>>)
  {
    && Union(batches) == Passed(keys, p.lastKey) && p.scanned == |Passed(keys, p.lastKey)|
    && (forall i :: 0 <= i < |batches| ==> NoRepeats(batches[i]) && 0 < |batches[i]| <= size)
    && (forall i, j :: 0 <= i < j < |batches| ==> Elements(batches[i]) !! Elements(batches[j]))
    && (p.completed ==> Remaining(keys, p.lastKey) == {})
    && p.updated == Touched(changed, batches)
  }

  const UNSTARTED := Progress(None, 0, 0, false)

  lemma NothingWalked(keys: set<int>, size: nat, changed: seq<int> -> nat)
    ensures Walked(keys, size, changed, UNSTARTED, [])
  {
    assert Passed(keys, None) == {};
  }

  /** The progress a committed page leaves. */
  function Advanced(p: Progress, page: seq<int>, changed: nat): Progress
    requires |page| > 0
  {
    Progress(Some(page[|page| - 1]), p.scanned + |page|, p.updated + changed, false)
  }

  lemma PageIsWalked(keys: set<int>, size: nat, changed: seq<int> -> nat, p: Progress, batches: seq<seq<int>>)
    requires size > 0 && Walked(keys, size, changed, p, batches) && Remaining(keys, p.lastKey) != {}
    ensures var page := NextKeys(keys, p.lastKey, size);
      |page| > 0 && Walked(keys, size, changed, Advanced(p, page, changed(page)), batches + [page])
  {
    hide NextKeys, Passed, Remaining, Union, Touched, NoRepeats;
    var page := NextKeys(keys, p.lastKey, size);
    PageIsPassed(keys, p.lastKey, size);
    PageMembers(keys, p.lastKey, size);
    PageCounts(keys, p.lastKey, size);
    UnionAppend(batches, page);
    TouchedAppend(changed, batches, page);
    forall i | 0 <= i < |batches| ensures Elements(batches[i]) !! Elements(page) { UnionHolds(batches, i); }
    StayApart(batches, page);
  }

  lemma TouchedAppend(changed: seq<int> -> nat, batches: seq<seq<int>>, page: seq<int>)
    ensures Touched(changed, batches + [page]) == Touched(changed, batches) + changed(page)
  {
    assert (batches + [page])[..|batches|] == batches;
  }

  lemma StayApart(batches: seq<seq<int>>, page: seq<int>)
    requires forall i, j :: 0 <= i < j < |batches| ==> Elements(batches[i]) !! Elements(batches[j])
    requires forall i :: 0 <= i < |batches| ==> Elements(batches[i]) !! Elements(page)
    ensures var all := batches + [page];
      forall i, j :: 0 <= i < j < |all| ==> Elements(all[i]) !! Elements(all[j])
  {
    hide Elements;
  }

  /** One target: a table's keys, and how many rows the update of a batch touches. */
  class Backfill {
    const keys: set<int>
    const batchSize: nat
    const changed: seq<int> -> nat
    var progress: Option<Progress>
    ghost var batches: seq<seq<int>>

    function Current(): Progress
      reads this
    {
      if progress.Some? then progress.value else UNSTARTED
    }

    ghost predicate Valid()
      reads this
    {
      batchSize > 0 && Walked(keys, batchSize, changed, Current(), batches)
    }

    /** Every key is in one batch, and the counts are those of the whole table. */
    ghost predicate Done()
      reads this
    {
      Current().completed && Union(batches) == keys && Current().scanned == |keys|
    }

    constructor (keys: set<int>, batchSize: nat, changed: seq<int> -> nat)
      requires batchSize > 0
      ensures Valid() && this.keys == keys && this.batchSize == batchSize && this.changed == changed
      ensures progress == None && batches == []
    {
      this.keys, this.batchSize, this.changed := keys, batchSize, changed;
      progress, batches := None, [];
      NothingWalked(keys, batchSize, changed);
    }

    /** One transaction: the update of a page and its progress, or the mark that none is left. */
    method RunBatch() returns (r: BatchResult)
      requires Valid()
      modifies this
      ensures Valid() && (r.completed <==> Remaining(keys, old(Current()).lastKey) == {})
      ensures r.completed ==>
        && r == BatchResult(0, 0, true) && Current() == old(Current()).(completed := true)
        && batches == old(batches)
      ensures !r.completed ==>
        var page := NextKeys(keys, old(Current()).lastKey, batchSize);
        && r == BatchResult(|page|, changed(page), false) && batches == old(batches) + [page]
        && |Remaining(keys, Current().lastKey)| < |Remaining(keys, old(Current()).lastKey)|
    {
      hide Union, Remaining, Passed, NextKeys, Touched;
      var p := Current();
      if p.completed { return BatchResult(0, 0, true); }
      var page := NextKeys(keys, p.lastKey, batchSize);
      PageMembers(keys, p.lastKey, batchSize);
      if |page| == 0 {
        progress := Some(p.(completed := true));
        return BatchResult(0, 0, true);
      }
      PageIsWalked(keys, batchSize, changed, p, batches);
      PageCounts(keys, p.lastKey, batchSize);
      progress := Some(Advanced(p, page, changed(page)));
      batches := batches + [page];
      r := BatchResult(|page|, changed(page), false);
    }

    /** As many batches as asked for, or all of them; it stops early once nothing is left. */
    method RunBatches(maxBatches: nat, untilComplete: bool) returns (results: seq<BatchResult>)
      requires Valid() && maxBatches > 0
      modifies this
      ensures Valid() && |results| > 0
      ensures results[|results| - 1].completed ==> Done()
      ensures !results[|results| - 1].completed ==> !untilComplete && |results| == maxBatches
      ensures old(batches) <= batches && |batches| <= |old(batches)| + |results|
    {
      results := [];
      while |results| < maxBatches || untilComplete
        invariant Valid() && (|results| > 0 ==> !results[|results| - 1].completed)
        invariant old(batches) <= batches && |batches| == |old(batches)| + |results|
        invariant !untilComplete ==> |results| <= maxBatches
        decreases |Remaining(keys, Current().lastKey)|
      {
        var r := RunBatch();
        results := results + [r];
        if r.completed {
          Split(keys, Current().lastKey);
          return;
        }
      }
    }
  }

  /** Target after target.  Until complete it ends, whatever attempts were cut short before, with every
      key of every target in one batch. */
  method RunTargets(targets: seq<Backfill>, maxBatches: nat, untilComplete: bool)
    requires maxBatches > 0 && NoRepeats(targets) && forall t :: t in targets ==> t.Valid()
    modifies set t | t in targets
    ensures forall t :: t in targets ==> t.Valid() && (untilComplete ==> t.Done())
  {
    for i := 0 to |targets|
      invariant forall t :: t in targets ==> t.Valid()
      invariant untilComplete ==> forall k :: 0 <= k < i ==> targets[k].Done()
    {
      var _ := targets[i].RunBatches(maxBatches, untilComplete);
    }
  }
}
