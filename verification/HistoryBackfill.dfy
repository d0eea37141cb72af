/** The history backfill: inferred histories for the entities that have none, walked in key order.

    Its candidates are the entities without history, so each batch takes its own candidates away, and
    the simulator, which writes histories of its own meanwhile, takes others.  Each entity is inferred
    once at most all the same, before anything else is in its history. */
module HistoryBackfill {
  import opened Wrappers
  import opened Ordering
  import opened KeysetBackfill
  import opened HistoryInference

  type History = seq<InferredEvent>

  function Of(table: map<int, History>, k: int): History {
    if k in table then table[k] else []
  }

  /** Entities without a single event. */
  function Candidates(keys: set<int>, table: map<int, History>): set<int> {
    set k | k in keys && Of(table, k) == []
  }

  /** Everything inferred for the keys of a batch. */
  function Inferred(infer: int -> History, page: seq<int>): nat {
    if |page| == 0 then 0 else Inferred(infer, page[..|page| - 1]) + |infer(page[|page| - 1])|
  }

  lemma {:induction false} InferredAppend(infer: int -> History, walked: seq<int>, page: seq<int>)
    ensures Inferred(infer, walked + page) == Inferred(infer, walked) + Inferred(infer, page)
  {
    if |page| == 0 {
      assert walked + page == walked;
    } else {
      InferredAppend(infer, walked, page[..|page| - 1]);
      assert (walked + page)[..|walked + page| - 1] == walked + page[..|page| - 1];
    }
  }

  lemma WalkedOn(walked: seq<int>, page: seq<int>)
    requires NoRepeats(walked) && NoRepeats(page) && Elements(walked) !! Elements(page)
    ensures NoRepeats(walked + page) && Elements(walked + page) == Elements(walked) + Elements(page)
  {
    forall i, j | 0 <= i < |walked| && 0 <= j < |page| ensures walked[i] != page[j] {
      assert walked[i] in Elements(walked) && page[j] in Elements(page);
    }
  }

  /** A table after the inferred events of a batch are inserted. */
  function WithInferred(table: map<int, History>, infer: int -> History, page: seq<int>): map<int, History> {
    map k | k in table.Keys + Elements(page) :: Of(table, k) + if k in Elements(page) then infer(k) else []
  }

  /** An entity's history: what was inferred if it was visited, then what others wrote. */
  ghost predicate IsHistory(
    table: map<int, History>, infer: int -> History, visited: set<int>, others: map<int, History>, k: int)
  {
    Of(table, k) == (if k in visited then infer(k) else []) + Of(others, k)
  }

  /** Keys passed were visited or have a history of others; none beyond the last key was visited. */
  ghost predicate Sound(
    keys: set<int>, infer: int -> History, p: Progress, table: map<int, History>,
    visited: set<int>, others: map<int, History>)
  {
    && visited <= Passed(keys, p.lastKey) && p.scanned == |visited|
    && (forall k :: IsHistory(table, infer, visited, others, k))
    && (forall k :: k in Passed(keys, p.lastKey) ==> k in visited || Of(others, k) != [])
    && (p.completed ==> forall k :: k in keys ==> k in visited || Of(others, k) != [])
  }

  lemma NothingVisited(keys: set<int>, infer: int -> History, table: map<int, History>)
    ensures Sound(keys, infer, UNSTARTED, table, {}, table)
  {
    forall k ensures IsHistory(table, infer, {}, table, k) {
      assert [] + Of(table, k) == Of(table, k);
    }
  }

  /** A batch holds keys that were never visited and have no history. */
  lemma BatchIsNew(
    keys: set<int>, infer: int -> History, size: nat, p: Progress, table: map<int, History>,
    visited: set<int>, others: map<int, History>, k: int)
    requires Sound(keys, infer, p, table, visited, others)
    requires k in Elements(NextKeys(Candidates(keys, table), p.lastKey, size))
    ensures k in keys && After(p.lastKey, k) && k !in visited && Of(table, k) == Of(others, k) == []
  {
    PageMembers(Candidates(keys, table), p.lastKey, size);
    hide NextKeys;
    assert k in Remaining(Candidates(keys, table), p.lastKey);
    assert IsHistory(table, infer, visited, others, k);
    assert k !in Passed(keys, p.lastKey);
  }

  /** A key it passes is in it, or was visited before, or has a history of others. */
  lemma PassedKeys(
    keys: set<int>, infer: int -> History, size: nat, p: Progress, table: map<int, History>,
    visited: set<int>, others: map<int, History>, k: int)
    requires size > 0 && Sound(keys, infer, p, table, visited, others)
    requires Remaining(Candidates(keys, table), p.lastKey) != {}
    ensures var page := NextKeys(Candidates(keys, table), p.lastKey, size);
      |page| > 0 && (k in Passed(keys, Some(page[|page| - 1])) ==>
        k in visited || k in Elements(page) || Of(others, k) != [])
  {
    var cands := Candidates(keys, table);
    var page := NextKeys(cands, p.lastKey, size);
    PageIsPassed(cands, p.lastKey, size);
    hide NextKeys;
    if k in Passed(keys, Some(page[|page| - 1])) && k !in Passed(keys, p.lastKey) {
      assert IsHistory(table, infer, visited, others, k);
      if k in cands { assert k in Passed(cands, Some(page[|page| - 1])) && k !in Passed(cands, p.lastKey); }
    }
  }

  lemma PagePassesItself(
    keys: set<int>, table: map<int, History>, last: Option<int>, size: nat, visited: set<int>)
    requires size > 0 && Remaining(Candidates(keys, table), last) != {} && visited <= Passed(keys, last)
    ensures var page := NextKeys(Candidates(keys, table), last, size);
      |page| > 0 && visited + Elements(page) <= Passed(keys, Some(page[|page| - 1])) && NoRepeats(page)
  {
    var cands := Candidates(keys, table);
    var page := NextKeys(cands, last, size);
    PageIsPassed(cands, last, size);
    PageMembers(cands, last, size);
    hide NextKeys;
    var end := page[|page| - 1];
    assert end in Elements(page) && After(last, end) by { assert end in Remaining(cands, last); }
    forall k | k in Elements(page) ensures k in Passed(keys, Some(end)) { assert k in Passed(cands, Some(end)); }
  }

  lemma InferredOnce(
    table: map<int, History>, infer: int -> History, page: seq<int>,
    visited: set<int>, others: map<int, History>, k: int)
    requires IsHistory(table, infer, visited, others, k)
    requires k in Elements(page) ==> k !in visited && Of(others, k) == []
    ensures IsHistory(WithInferred(table, infer, page), infer, visited + Elements(page), others, k)
  {
    assert Of(WithInferred(table, infer, page), k) == Of(table, k) + if k in Elements(page) then infer(k) else [];
  }

  /** A batch of candidates visits keys never visited before and passes up to the last of them. */
  lemma BatchIsSound(
    keys: set<int>, infer: int -> History, size: nat, p: Progress, table: map<int, History>,
    visited: set<int>, others: map<int, History>)
    requires size > 0 && Sound(keys, infer, p, table, visited, others)
    requires Remaining(Candidates(keys, table), p.lastKey) != {}
    ensures var page := NextKeys(Candidates(keys, table), p.lastKey, size);
      && |page| > 0 && visited !! Elements(page)
      && Sound(keys, infer, Advanced(p, page, Inferred(infer, page)), WithInferred(table, infer, page),
               visited + Elements(page), others)
  {
    var page := NextKeys(Candidates(keys, table), p.lastKey, size);
    PagePassesItself(keys, table, p.lastKey, size, visited);
    NoRepeatsLength(page);
    forall k | k in Elements(page) ensures k !in visited {
      BatchIsNew(keys, infer, size, p, table, visited, others, k);
    }
    forall k | k in Passed(keys, Some(page[|page| - 1]))
      ensures k in visited + Elements(page) || Of(others, k) != []
    {
      PassedKeys(keys, infer, size, p, table, visited, others, k);
    }
    forall k ensures IsHistory(WithInferred(table, infer, page), infer, visited + Elements(page), others, k) {
      if k in Elements(page) { BatchIsNew(keys, infer, size, p, table, visited, others, k); }
      InferredOnce(table, infer, page, visited, others, k);
    }
    assert |visited + Elements(page)| == |visited| + |page|;
    hide NextKeys, Inferred, Passed, Remaining, Candidates, IsHistory, WithInferred, Of;
  }

  /** Only what was inferred of visited entities counts. */
  lemma SameInferences(
    keys: set<int>, infer: int -> History, other: int -> History, p: Progress, table: map<int, History>,
    visited: set<int>, others: map<int, History>)
    requires Sound(keys, infer, p, table, visited, others)
    requires forall k :: k in visited ==> infer(k) == other(k)
    ensures Sound(keys, other, p, table, visited, others)
  {
    hide Passed;
    forall k ensures IsHistory(table, other, visited, others, k) {
      assert IsHistory(table, infer, visited, others, k);
    }
  }

  lemma {:induction false} SameTotal(infer: int -> History, other: int -> History, page: seq<int>)
    requires forall k :: k in Elements(page) ==> infer(k) == other(k)
    ensures Inferred(infer, page) == Inferred(other, page)
  {
    if |page| > 0 {
      var before, last := page[..|page| - 1], page[|page| - 1];
      assert last in Elements(page);
      forall k | k in Elements(before) ensures k in Elements(page) {
        var i :| 0 <= i < |before| && before[i] == k;
        assert page[i] == k;
      }
      SameTotal(infer, other, before);
    }
  }

  /** What is known of the inferences once a batch has made its own. */
  function Since(seen: int -> History, infer: int -> History, page: seq<int>): int -> History {
    k => if k in Elements(page) then infer(k) else seen(k)
  }

  lemma SinceIsInserted(seen: int -> History, infer: int -> History, page: seq<int>, table: map<int, History>)
    ensures WithInferred(table, Since(seen, infer, page), page) == WithInferred(table, infer, page)
    ensures Inferred(Since(seen, infer, page), page) == Inferred(infer, page)
  {
    SameTotal(Since(seen, infer, page), infer, page);
  }

  /** With no candidate beyond the last key, every entity has a history or had nothing to infer. */
  lemma NoneIsLeft(
    keys: set<int>, infer: int -> History, p: Progress, table: map<int, History>,
    visited: set<int>, others: map<int, History>)
    requires Sound(keys, infer, p, table, visited, others)
    requires Remaining(Candidates(keys, table), p.lastKey) == {}
    ensures Sound(keys, infer, p.(completed := true), table, visited, others)
  {
    forall k | k in keys ensures k in visited || Of(others, k) != [] {
      assert IsHistory(table, infer, visited, others, k);
      if k !in Passed(keys, p.lastKey) {
        assert k !in Remaining(Candidates(keys, table), p.lastKey);
      }
    }
  }

  /** What others write meanwhile: events added to one entity's history. */
  datatype Write = Write(key: int, events: History)

  function Written(table: map<int, History>, w: Write): map<int, History> {
    table[w.key := Of(table, w.key) + w.events]
  }

  lemma WrittenIsHistory(
    table: map<int, History>, infer: int -> History, visited: set<int>, others: map<int, History>, w: Write, k: int)
    requires IsHistory(table, infer, visited, others, k)
    ensures IsHistory(Written(table, w), infer, visited, Written(others, w), k)
    ensures Of(others, k) != [] ==> Of(Written(others, w), k) != []
  {
    var own, theirs := if k in visited then infer(k) else [], Of(others, k);
    WrittenTo(table, w, k);
    WrittenTo(others, w, k);
    hide Written, Of;
    if k == w.key { assert (own + theirs) + w.events == own + (theirs + w.events); }
  }

  lemma WrittenTo(table: map<int, History>, w: Write, k: int)
    ensures Of(Written(table, w), k) == if k == w.key then Of(table, k) + w.events else Of(table, k)
  {
  }

  lemma OthersKeepSound(
    keys: set<int>, infer: int -> History, p: Progress, table: map<int, History>,
    visited: set<int>, others: map<int, History>, w: Write)
    requires Sound(keys, infer, p, table, visited, others)
    ensures Sound(keys, infer, p, Written(table, w), visited, Written(others, w))
  {
    hide Passed, IsHistory, Written, Of;
    forall k
      ensures IsHistory(Written(table, w), infer, visited, Written(others, w), k)
      ensures Of(others, k) != [] ==> Of(Written(others, w), k) != []
    {
      WrittenIsHistory(table, infer, visited, others, w, k);
    }
  }

  class HistoryRun {
    const keys: set<int>
    const batchSize: nat
    var progress: Option<Progress>
    var table: map<int, History>
    /** What was inferred of each entity visited, and which those are, in the order of the walk. */
    ghost var seen: int -> History
    ghost var visited: set<int>
    ghost var walked: seq<int>
    ghost var others: map<int, History>

    function Current(): Progress
      reads this
    {
      if progress.Some? then progress.value else UNSTARTED
    }

    ghost predicate Valid()
      reads this
    {
      && batchSize > 0 && Sound(keys, seen, Current(), table, visited, others)
      && NoRepeats(walked) && Elements(walked) == visited && Current().updated == Inferred(seen, walked)
    }

    constructor (keys: set<int>, batchSize: nat, table: map<int, History>)
      requires batchSize > 0
      ensures Valid() && this.keys == keys && this.batchSize == batchSize && this.table == table
      ensures visited == {} && others == table
    {
      this.keys, this.batchSize := keys, batchSize;
      progress, this.table, seen, visited, walked, others := None, table, k => [], {}, [], table;
      NothingVisited(keys, k => [], table);
    }

    /** Others append to histories, whether the backfill has been there or not. */
    method OthersWrite(w: Write)
      requires Valid()
      modifies this`table, this`others
      ensures Valid() && others == Written(old(others), w) && table == Written(old(table), w)
    {
      hide Sound, Inferred, Of;
      OthersKeepSound(keys, seen, Current(), table, visited, others, w);
      table, others := Written(table, w), Written(others, w);
    }

    /** One transaction: the histories inferred from the rows of the next candidates as they are now,
        and the progress. */
    method RunBatch(infer: int -> History) returns (completed: bool)
      requires Valid()
      modifies this`progress, this`table, this`seen, this`visited, this`walked
      ensures Valid() && (forall k :: k in old(visited) ==> seen(k) == old(seen)(k))
      ensures completed ==>
        Current() == old(Current()).(completed := true) && table == old(table) && visited == old(visited)
      ensures !completed ==>
        && |Remaining(keys, Current().lastKey)| < |Remaining(keys, old(Current()).lastKey)|
        && old(visited) < visited
        && forall k :: k in visited - old(visited) ==> Of(old(table), k) == [] && seen(k) == infer(k)
    {
      hide NextKeys, Inferred, Sound, WithInferred;
      var p := Current();
      if p.completed { return true; }
      var cands := Candidates(keys, table);
      var page := NextKeys(cands, p.lastKey, batchSize);
      PageMembers(cands, p.lastKey, batchSize);
      if |page| == 0 {
        NoneIsLeft(keys, seen, p, table, visited, others);
        progress := Some(p.(completed := true));
        return true;
      }
      forall k | k in Elements(page) ensures k in keys && After(p.lastKey, k) && k !in visited && Of(table, k) == [] {
        BatchIsNew(keys, seen, batchSize, p, table, visited, others, k);
      }
      var end := page[|page| - 1];
      assert end in Elements(page);
      assert end in keys && After(p.lastKey, end);
      FewerRemain(keys, p.lastKey, page);
      AddBatch(infer, page);
      completed := false;
    }

    /** The writes of one batch. */
    method AddBatch(infer: int -> History, page: seq<int>)
      requires Valid() && !Current().completed
      requires Remaining(Candidates(keys, table), Current().lastKey) != {}
      requires page == NextKeys(Candidates(keys, table), Current().lastKey, batchSize)
      requires |page| > 0 && NoRepeats(page) && forall k :: k in Elements(page) ==> k !in visited
      modifies this`progress, this`table, this`seen, this`visited, this`walked
      ensures Valid() && seen == Since(old(seen), infer, page) && visited == old(visited) + Elements(page)
      ensures Current() == Advanced(old(Current()), page, Inferred(infer, page))
    {
      hide NextKeys, Inferred, Sound, WithInferred, Remaining, Candidates;
      var p := Current();
      ghost var now := Since(seen, infer, page);
      SameInferences(keys, seen, now, p, table, visited, others);
      SinceIsInserted(seen, infer, page, table);
      BatchIsSound(keys, now, batchSize, p, table, visited, others);
      SameTotal(seen, now, walked);
      WalkedOn(walked, page);
      InferredAppend(now, walked, page);
      table := WithInferred(table, infer, page);
      progress := Some(Advanced(p, page, Inferred(infer, page)));
      seen, visited, walked := now, visited + Elements(page), walked + page;
    }

    /** Run after run until complete, others changing rows and writing histories before each batch: it
        ends with every entity inferred once, from its row as some batch read it, or left to the history
        others gave it. */
    method RunUntilComplete(writes: nat -> seq<Write>, infers: nat -> int -> History)
      requires Valid()
      modifies this
      ensures Valid() && Current().completed
      ensures forall k :: IsHistory(table, seen, visited, others, k)
      ensures forall k :: k in keys ==> k in visited || Of(others, k) != []
      ensures forall k :: k in visited && k !in old(visited) ==> exists round :: seen(k) == infers(round)(k)
      ensures Current().scanned == |visited| && visited <= keys
      ensures NoRepeats(walked) && Elements(walked) == visited && Current().updated == Inferred(seen, walked)
    {
      var completed, round := false, 0;
      ghost var first := visited;
      while !completed
        invariant Valid() && (completed ==> Current().completed) && first <= visited
        invariant forall k :: k in visited && k !in first ==> exists r: nat :: seen(k) == infers(r)(k)
        decreases |Remaining(keys, Current().lastKey)|, if completed then 0 else 1
      {
        var batch := writes(round);
        ghost var before, were := Current(), visited;
        for i := 0 to |batch|
          invariant Valid() && Current() == before && visited == were
          invariant forall k :: k in visited && k !in first ==> exists r: nat :: seen(k) == infers(r)(k)
        {
          OthersWrite(batch[i]);
        }
        ghost var known := seen;
        completed := RunBatch(infers(round));
        forall k | k in visited && k !in first ensures exists r: nat :: seen(k) == infers(r)(k) {
          if k in were { assert seen(k) == known(k); } else { assert seen(k) == infers(round)(k); }
        }
        round := round + 1;
      }
    }
  }

  lemma FewerRemain(keys: set<int>, last: Option<int>, page: seq<int>)
    requires |page| > 0 && page[|page| - 1] in keys && After(last, page[|page| - 1])
    ensures |Remaining(keys, Some(page[|page| - 1]))| < |Remaining(keys, last)|
  {
    var now, was := Remaining(keys, Some(page[|page| - 1])), Remaining(keys, last);
    assert page[|page| - 1] in was && page[|page| - 1] !in now && now <= was;
    assert was == now + (was - now);
  }
}
