/** A Bulk Query job over any number of interrupted runs, and the pages clients read from it. */
module BulkExport {
  import opened Wrappers
  import opened Ordering
  import opened QueryScans
  import opened BulkQuery

  /** The rows a run delivers when the engine scans them in the order `scan`: a query without an
      order of its own is ordered by the internal id, inside its LIMIT and OFFSET. */
  function Delivered(q: Query, scan: seq<Row>): seq<Row> {
    Cut(q, if q.order.Some? then scan else Sort(scan, RowId))
  }

  /** The full result, cut from it: a function of the data alone. */
  ghost function FullResult(q: Query, data: set<Row>): seq<Cells>
    requires DistinctKeys(data, RowId)
  {
    Public(Cut(q, Canonical(q, data)))
  }

  /** No row that the query returns ties with a row of other cells. */
  ghost predicate TiesAgree(q: Query, data: set<Row>)
    requires DistinctKeys(data, RowId)
  {
    q.order.Some? ==>
      forall p, s :: 0 <= p < |Canonical(q, data)| && InWindow(q, p) && s in data ==> AgreesAt(q, data, p, s)
  }

  ghost predicate AgreesAt(q: Query, data: set<Row>, p: nat, s: Row)
    requires DistinctKeys(data, RowId) && p < |Canonical(q, data)| && q.order.Some?
  {
    var r := Canonical(q, data)[p];
    q.order.value(s) == q.order.value(r) ==> s.cells == r.cells
  }

  /** Where ties agree, every scan delivers the full result. */
  lemma DeliveredIsFull(q: Query, data: set<Row>, scan: seq<Row>)
    requires DistinctKeys(data, RowId) && Scans(q, data, scan) && TiesAgree(q, data)
    ensures Public(Delivered(q, scan)) == FullResult(q, data)
  {
    if q.order.None? {
      SortListsTheSet(scan, data, RowId);
    } else {
      var one := Canonical(q, data);
      CanonicalIsAScan(q, data);
      SameKeys(q, data, scan, one, 0);
      hide Canonical, Scans;
      forall p | 0 <= p < |one| && InWindow(q, p) ensures scan[p].cells == one[p].cells {
        SameKeys(q, data, scan, one, p);
        SameKeys(q, data, one, scan, p);
        ScanHolds(q, data, scan, p);
        assert AgreesAt(q, data, p, scan[p]);
      }
      CutAgrees(q, scan, one);
    }
  }

  lemma CutAgrees(q: Query, a: seq<Row>, b: seq<Row>)
    requires |a| == |b| && forall p :: 0 <= p < |a| && InWindow(q, p) ==> a[p].cells == b[p].cells
    ensures Public(Cut(q, a)) == Public(Cut(q, b))
  {
    CutIsWindow(q, a);
    CutIsWindow(q, b);
    forall i: nat | i < |Cut(q, a)| ensures Public(Cut(q, a))[i] == Public(Cut(q, b))[i] {
      assert IsAt(q, a, i) && IsAt(q, b, i);
    }
  }

  /* ---- When a resumed export is complete ---- */

  /** Resuming over another delivery of the query exports each of its rows, and no other, exactly when
      what is committed are the rows that delivery starts with, in any order. */
  lemma ResumingIsCompleteWhen(before: seq<Cells>, rows: seq<Cells>)
    requires |before| <= |rows|
    ensures multiset(Resumed(before, rows)) == multiset(rows) <==> multiset(before) == multiset(rows[..|before|])
  {
    CompletedByTheRest(before, rows);
    assert Resumed(before, rows) == before + rows[|before|..];
  }

  /** A run over `a` that died after `k` rows, resumed over `b`, exports what `b` delivers. */
  ghost predicate ResumeIsComplete(q: Query, a: seq<Row>, b: seq<Row>, k: nat) {
    var before, rows := Public(Delivered(q, a)), Public(Delivered(q, b));
    k <= |before| ==> multiset(Resumed(before[..k], rows)) == multiset(rows)
  }

  ghost predicate ResumesAreComplete(q: Query, data: set<Row>) {
    forall a, b, k :: Scans(q, data, a) && Scans(q, data, b) ==> ResumeIsComplete(q, a, b, k)
  }

  /** Whichever scans the engine makes and wherever the first run dies, the resumed export is complete
      exactly when no row the query returns ties with a row of other cells. */
  lemma ResumesAreCompleteExactly(q: Query, data: set<Row>)
    requires DistinctKeys(data, RowId)
    ensures ResumesAreComplete(q, data) <==> TiesAgree(q, data)
  {
    hide Canonical, Scans;
    if TiesAgree(q, data) {
      forall a, b, k: nat | Scans(q, data, a) && Scans(q, data, b) ensures ResumeIsComplete(q, a, b, k) {
        DeliveredIsFull(q, data, a);
        DeliveredIsFull(q, data, b);
        var full := FullResult(q, data);
        if k <= |full| { assert Resumed(full[..k], full) == full; }
      }
    } else {
      var a, b, k := TieBreaksResume(q, data);
      assert !ResumeIsComplete(q, a, b, k);
    }
  }

  /** Without OFFSET and LIMIT: rows with equal keys have equal cells. */
  lemma TiesOfTheWholeResult(q: Query, data: set<Row>)
    requires DistinctKeys(data, RowId) && q.order.Some? && q.offset == 0 && q.limit.None?
    ensures TiesAgree(q, data) <==>
      forall r, s :: r in data && s in data && q.order.value(r) == q.order.value(s) ==> r.cells == s.cells
  {
    var one := Canonical(q, data);
    CanonicalIsAScan(q, data);
    hide Canonical;
    forall p | 0 <= p < |one| ensures one[p] in data { ScanHolds(q, data, one, p); }
    if TiesAgree(q, data) {
      forall r, s | r in data && s in data && q.order.value(r) == q.order.value(s) ensures r.cells == s.cells {
        assert r in Elements(one);
        var p: nat :| p < |one| && one[p] == r;
        assert AgreesAt(q, data, p, s);
      }
    }
  }

  /** A row in the window and one of other cells that ties with it: two scans and a cut that miss one
      of the two and export the other twice. */
  lemma TieBreaksResume(q: Query, data: set<Row>) returns (a: seq<Row>, b: seq<Row>, k: nat)
    requires DistinctKeys(data, RowId) && !TiesAgree(q, data)
    ensures Scans(q, data, a) && Scans(q, data, b) && !ResumeIsComplete(q, a, b, k)
  {
    var key := q.order.value;
    var one := Canonical(q, data);
    CanonicalIsAScan(q, data);
    var p: nat, s :| p < |one| && InWindow(q, p) && s in data && !AgreesAt(q, data, p, s);
    assert s in Elements(one) by { hide Canonical; }
    var j: nat :| j < |one| && one[j] == s;
    hide Canonical;
    var r := one[p];
    // The first position of the window whose row ties with them.
    var at: nat := p;
    while at > 0 && InWindow(q, at - 1) && key(one[at - 1]) == key(r)
      invariant at <= p && InWindow(q, at) && key(one[at]) == key(r)
    {
      at := at - 1;
    }
    a, b, k := PlacedApart(q, data, one, at, p, j);
  }

  lemma PlacedApart(q: Query, data: set<Row>, one: seq<Row>, at: nat, p: nat, j: nat)
    returns (a: seq<Row>, b: seq<Row>, k: nat)
    requires q.order.Some? && Scans(q, data, one) && at <= p < |one| && j < |one|
    requires at > 0 && InWindow(q, at - 1) ==> q.order.value(one[at - 1]) != q.order.value(one[at])
    requires InWindow(q, at)
    requires q.order.value(one[at]) == q.order.value(one[p]) == q.order.value(one[j])
    requires one[p].cells != one[j].cells
    ensures Scans(q, data, a) && Scans(q, data, b) && !ResumeIsComplete(q, a, b, k)
  {
    hide Scans, Cut, Delivered, ResumeIsComplete, InWindow;
    a := Swapped(one, at, p);
    SwappedIsAScan(q, data, one, at, p);
    var other := if j == at then p else if j == p then at else j;
    assert a[at] == one[p] && a[other] == one[j];
    b := Swapped(a, at, other);
    SwappedIsAScan(q, data, a, at, other);
    assert other < at ==> other < q.offset by {
      if q.offset <= other < at { TieReachesBack(q, data, one, other, at); }
    }
    assert q.offset <= at by { WindowStarts(q, at); }
    k := at + 1 - q.offset;
    DifferentAtTheCut(q, a, b, at);
  }

  lemma WindowStarts(q: Query, p: nat)
    ensures InWindow(q, p) ==> q.offset <= p
  {
  }

  lemma TieReachesBack(q: Query, data: set<Row>, one: seq<Row>, i: nat, at: nat)
    requires q.order.Some? && Scans(q, data, one) && q.offset <= i < at < |one| && InWindow(q, at)
    requires q.order.value(one[i]) == q.order.value(one[at])
    ensures InWindow(q, at - 1) && q.order.value(one[at - 1]) == q.order.value(one[at])
  {
  }

  /** Deliveries whose cells differ at one place of the window and, before it, nowhere. */
  lemma DifferentAtTheCut(q: Query, a: seq<Row>, b: seq<Row>, at: nat)
    requires q.order.Some? && at < |a| == |b| && InWindow(q, at) && a[at].cells != b[at].cells
    requires forall i :: q.offset <= i < at ==> a[i] == b[i]
    ensures !ResumeIsComplete(q, a, b, at + 1 - q.offset)
  {
    CutIsWindow(q, a);
    CutIsWindow(q, b);
    var before, rows := Public(Delivered(q, a)), Public(Delivered(q, b));
    hide Cut, Resumed;
    var k := at - q.offset;
    assert IsAt(q, a, k) && IsAt(q, b, k);
    forall i: nat | i < k ensures before[i] == rows[i] {
      assert IsAt(q, a, i) && IsAt(q, b, i);
    }
    FirstDifferenceShows(before, rows, k);
  }

  lemma FirstDifferenceShows(before: seq<Cells>, rows: seq<Cells>, k: nat)
    requires k < |before| && k < |rows| && before[k] != rows[k]
    requires forall i :: 0 <= i < k ==> before[i] == rows[i]
    ensures multiset(Resumed(before[..k + 1], rows)) != multiset(rows)
  {
    assert before[..k] == rows[..k];
    assert before[..k + 1] == before[..k] + [before[k]];
    assert rows[..k + 1] == before[..k] + [rows[k]];
    ResumingIsCompleteWhen(before[..k + 1], rows);
    OneCellDiffers(before[..k], before[k], rows[k]);
  }

  lemma OneCellDiffers(same: seq<Cells>, x: Cells, y: Cells)
    requires x != y
    ensures multiset(same + [x]) != multiset(same + [y])
  {
    assert multiset(same + [x])[x] == multiset(same)[x] + 1;
    assert multiset(same + [y])[x] == multiset(same)[x];
  }

  /** The failure as it runs: a part of one row is committed, the process dies, and the next scan has
      the tied rows the other way round.  One row is exported twice and the other never. */
  method TieExportsARowTwice() returns (job: BulkQueryJob)
    ensures Scans(BY_STAGE, {NORTH, SOUTH}, [NORTH, SOUTH]) && Scans(BY_STAGE, {NORTH, SOUTH}, [SOUTH, NORTH])
    ensures fresh(job) && job.Valid() && job.Rows() == [["Northwind"], ["Northwind"]]
  {
    TwoScans();
    DeliveredWhole([NORTH, SOUTH]);
    DeliveredWhole([SOUTH, NORTH]);
    job := new BulkQueryJob();
    var first := job.Stream(Delivered(BY_STAGE, [NORTH, SOUTH]), 1, 3);
    assert Public([NORTH, SOUTH]) == [["Northwind"], ["Southridge"]];
    assert job.Rows() == [["Northwind"]];
    var second := job.Stream(Delivered(BY_STAGE, [SOUTH, NORTH]), 1, 10);
    assert Public([SOUTH, NORTH]) == [["Southridge"], ["Northwind"]];
  }

  lemma DeliveredWhole(scan: seq<Row>)
    ensures Delivered(BY_STAGE, scan) == scan
  {
  }

  datatype Attempt = Attempt(scan: seq<Row>, partSize: nat, budget: nat)

  /** However often a run dies, whatever order the engine scans in and whatever the part size is
      then: at each point the manifest is a prefix of the full result, and the run that ends leaves
      exactly the full result. */
  method Export(job: BulkQueryJob, q: Query, ghost data: set<Row>, attempts: seq<Attempt>, last: Attempt)
      returns (outcome: Outcome)
    requires job.Valid() && job.Rows() == [] && DistinctKeys(data, RowId) && TiesAgree(q, data)
    requires forall i :: 0 <= i < |attempts| ==> Scans(q, data, attempts[i].scan) && attempts[i].partSize > 0
    requires Scans(q, data, last.scan) && last.partSize > 0
    modifies job
    ensures job.Valid() && job.Rows() <= FullResult(q, data)
    ensures outcome.Finished? || outcome.Crashed?
    ensures outcome.Finished? ==> job.Rows() == FullResult(q, data) && outcome.processed == |FullResult(q, data)|
  {
    ghost var full := FullResult(q, data);
    hide Sound, Scans, FullResult, DistinctKeys, TiesAgree, Progressed;
    for i := 0 to |attempts|
      invariant job.Valid() && job.Rows() <= full
    {
      DeliveredIsFull(q, data, attempts[i].scan);
      ResumedPrefix(job.Rows(), full);
      var _ := job.Stream(Delivered(q, attempts[i].scan), attempts[i].partSize, attempts[i].budget);
    }
    DeliveredIsFull(q, data, last.scan);
    ResumedPrefix(job.Rows(), full);
    outcome := job.Stream(Delivered(q, last.scan), last.partSize, last.budget);
  }

  lemma ResumedPrefix(before: seq<Cells>, rows: seq<Cells>)
    requires before <= rows
    ensures Resumed(before, rows) == rows
  {
  }

  /* ---- Reading the result: windows over the parts ---- */

  /** A locator as the client sends it: none, `r:` and a number, or anything else. */
  datatype Locator = First | At(offset: int) | Malformed

  datatype Page = Page(count: nat, next: Option<nat>) | InvalidLocator

  function Offset(locator: Locator): int
    requires !locator.Malformed?
  {
    if locator.First? then 0 else locator.offset
  }

  /** A page of at most `maxRecords` rows, and the locator of the next page: none after the last. */
  function Window(total: nat, locator: Locator, maxRecords: int): (p: Page)
    ensures p.Page? <==> maxRecords > 0 && !locator.Malformed? && 0 <= Offset(locator) < total
    ensures p.Page? ==> 0 < p.count <= maxRecords && Offset(locator) + p.count <= total
    ensures p.Page? ==>
      if Offset(locator) + p.count < total then p.next == Some(Offset(locator) + p.count) && p.count == maxRecords
      else p.next == None
  {
    if maxRecords <= 0 || locator.Malformed? then InvalidLocator
    else
      var offset := Offset(locator);
      if offset < 0 || offset >= total then InvalidLocator
      else
        var count := if maxRecords < total - offset then maxRecords else total - offset;
        Page(count, if offset + count < total then Some(offset + count) else None)
  }

  /** Stream the header and `count` rows from `offset` on, across the parts. */
  method StreamWindow(parts: seq<seq<Cells>>, header: Cells, offset: nat, count: nat)
    returns (emitted: seq<Cells>, headers: nat)
    ensures emitted == Slice(Joined(parts), offset, count)
    ensures headers <= 1 && (|header| > 0 && |parts| > 0 ==> headers == 1)
  {
    emitted, headers := [], 0;
    var skipped := 0;
    ghost var seen: seq<Cells> := [];
    for i := 0 to |parts|
      invariant seen == Joined(parts[..i]) && Streamed(seen, offset, count, skipped, emitted)
      invariant headers <= 1 && (i > 0 && |header| > 0 ==> headers == 1)
    {
      if |header| > 0 && headers == 0 { headers := 1; }
      JoinedNext(parts, i);
      for j := 0 to |parts[i]|
        invariant seen == Joined(parts[..i]) + parts[i][..j] && Streamed(seen, offset, count, skipped, emitted)
      {
        ghost var was := seen;
        seen := seen + [parts[i][j]];
        assert parts[i][..j + 1] == parts[i][..j] + [parts[i][j]];
        if skipped < offset {
          skipped := skipped + 1;
          continue;
        }
        if |emitted| >= count {
          NothingMore(parts, i, j, was, offset, count);
          return;
        }
        emitted := emitted + [parts[i][j]];
      }
      assert parts[i][..|parts[i]|] == parts[i];
    }
    assert parts[..|parts|] == parts;
  }

  function Joined(parts: seq<seq<Cells>>): seq<Cells> {
    if |parts| == 0 then [] else Joined(parts[..|parts| - 1]) + parts[|parts| - 1]
  }

  lemma JoinedNext(parts: seq<seq<Cells>>, i: nat)
    requires i < |parts|
    ensures Joined(parts[..i + 1]) == Joined(parts[..i]) + parts[i]
  {
    assert parts[..i + 1][..i] == parts[..i];
  }

  ghost predicate Streamed(seen: seq<Cells>, offset: nat, count: nat, skipped: nat, emitted: seq<Cells>) {
    && skipped == (if |seen| < offset then |seen| else offset)
    && emitted == Slice(seen, offset, count)
  }

  lemma {:induction false} JoinedPrefix(parts: seq<seq<Cells>>, i: nat)
    requires i <= |parts|
    ensures Joined(parts[..i]) <= Joined(parts)
  {
    if i < |parts| {
      JoinedPrefix(parts[..|parts| - 1], i);
      assert parts[..|parts| - 1][..i] == parts[..i];
    } else {
      assert parts[..i] == parts;
    }
  }

  /** Once `count` rows are out, the rows still to come do not change the window. */
  lemma NothingMore(parts: seq<seq<Cells>>, i: nat, j: nat, seen: seq<Cells>, offset: nat, count: nat)
    requires i < |parts| && j < |parts[i]| && seen == Joined(parts[..i]) + parts[i][..j]
    requires offset <= |seen| && |Slice(seen, offset, count)| >= count
    ensures Slice(seen, offset, count) == Slice(Joined(parts), offset, count)
  {
    JoinedNext(parts, i);
    JoinedPrefix(parts, i + 1);
    assert seen <= Joined(parts[..i + 1]);
    assert seen <= Joined(parts);
  }

  /** The parts of a manifest, in order. */
  function PartRows(files: map<nat, seq<Cells>>, parts: seq<Part>): seq<seq<Cells>>
    requires Present(files, parts)
  {
    seq(|parts|, i requires 0 <= i < |parts| => files[parts[i].number])
  }

  lemma {:induction false} PartsJoinToExported(files: map<nat, seq<Cells>>, parts: seq<Part>)
    requires Present(files, parts)
    ensures Joined(PartRows(files, parts)) == Exported(files, parts)
  {
    if |parts| > 0 {
      PartsJoinToExported(files, parts[..|parts| - 1]);
      assert PartRows(files, parts)[..|parts| - 1] == PartRows(files, parts[..|parts| - 1]);
    }
  }

  /** Following the locators, page size by page size; sizes may differ from page to page. */
  function Follow(rows: seq<Cells>, locator: Locator, sizes: nat -> nat, page: nat): seq<Cells>
    requires (forall k :: sizes(k) > 0) && !locator.Malformed? && Offset(locator) >= 0
    decreases |rows| - Offset(locator)
  {
    match Window(|rows|, locator, sizes(page))
    case InvalidLocator => []
    case Page(count, next) =>
      Slice(rows, Offset(locator), count) + if next.None? then [] else Follow(rows, At(next.value), sizes, page + 1)
  }

  /** The pages cover every row once, in order, and the walk ends. */
  lemma {:induction false} PagesCoverTheResult(rows: seq<Cells>, locator: Locator, sizes: nat -> nat, page: nat)
    requires (forall k :: sizes(k) > 0) && !locator.Malformed? && 0 <= Offset(locator) <= |rows|
    ensures Follow(rows, locator, sizes, page) == rows[Offset(locator)..]
    decreases |rows| - Offset(locator)
  {
    hide Window, Slice, Follow;
    var from := Offset(locator);
    var p := Window(|rows|, locator, sizes(page));
    assert sizes(page) > 0;
    FollowPage(rows, locator, sizes, page);
    if p.Page? {
      PageAndRest(rows, from, p.count);
      if p.next.Some? { PagesCoverTheResult(rows, At(p.next.value), sizes, page + 1); }
    }
  }

  lemma FollowPage(rows: seq<Cells>, locator: Locator, sizes: nat -> nat, page: nat)
    requires (forall k :: sizes(k) > 0) && !locator.Malformed? && 0 <= Offset(locator) <= |rows|
    ensures var p := Window(|rows|, locator, sizes(page));
      Follow(rows, locator, sizes, page)
      == if p.InvalidLocator? then []
         else Slice(rows, Offset(locator), p.count)
              + if p.next.None? then [] else Follow(rows, At(p.next.value), sizes, page + 1)
  {
    hide Window, Slice;
  }

  lemma PageAndRest(rows: seq<Cells>, from: nat, count: nat)
    requires from + count <= |rows|
    ensures Slice(rows, from, count) + rows[from + count..] == rows[from..]
    ensures from + count == |rows| ==> rows[from + count..] == []
  {
  }
}
