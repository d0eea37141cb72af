/** REST query paging: the first page from the query itself, later pages from an index of record ids
    that is read back, page by page, and rehydrated from the data. */
module CursorPaging {
  import opened Wrappers
  import opened Ordering
  import opened QueryScans

  datatype IndexRow = IndexRow(sequence: int, id: int)

  datatype Cursor = Cursor(batchSize: nat, total: nat, snapshot: int)

  /** What a request names: a cursor and an offset, as `nextRecordsUrl` does, or anything else. */
  datatype Locator = Locator(cursor: nat, offset: nat) | Malformed

  datatype Body = Body(total: nat, done: bool, records: seq<Row>, next: Option<Locator>) | InvalidLocator

  function Sequence(r: IndexRow): int { r.sequence }

  /* ---- The id index ---- */

  function WriteIndex(result: seq<Row>): (r: seq<IndexRow>)
    ensures |r| == |result| && forall i :: 0 <= i < |r| ==> r[i] == IndexRow(i, result[i].id)
  {
    seq(|result|, i requires 0 <= i < |result| => IndexRow(i, result[i].id))
  }

  function Ids(rows: seq<IndexRow>): (r: seq<int>)
    ensures |r| == |rows| && forall i :: 0 <= i < |r| ==> r[i] == rows[i].id
  {
    seq(|rows|, i requires 0 <= i < |rows| => rows[i].id)
  }

  /** The ids of a page, in sequence order whatever order the index file is read in. */
  function ReadPageIds(index: seq<IndexRow>, offset: nat, size: nat): seq<int> {
    Ids(Sort(Select(index, (r: IndexRow) => offset <= r.sequence < offset + size), Sequence))
  }

  /** The index rows of a result, stored in any order. */
  ghost predicate Indexes(index: seq<IndexRow>, result: seq<Row>) {
    NoRepeats(index) && Elements(index) == Elements(WriteIndex(result))
  }

  lemma WriteIndexIndexes(result: seq<Row>)
    ensures Indexes(WriteIndex(result), result)
  {
  }

  lemma PageOfIndex(result: seq<Row>, offset: nat, size: nat)
    ensures var rows := Slice(WriteIndex(result), offset, size);
      && StrictlySortedBy(rows, Sequence)
      && Elements(rows) == (set r | r in Elements(WriteIndex(result)) && offset <= r.sequence < offset + size)
      && DistinctKeys(Elements(rows), Sequence)
  {
    var all := WriteIndex(result);
    var rows := Slice(all, offset, size);
    assert forall i :: 0 <= i < |rows| ==> rows[i] == all[offset + i];
    forall r | r in Elements(all) && offset <= r.sequence < offset + size ensures r in Elements(rows) {
      var i :| 0 <= i < |all| && all[i] == r;
      assert rows[i - offset] == r;
    }
    forall r | r in Elements(rows) ensures r in Elements(all) && offset <= r.sequence < offset + size {
      var i :| 0 <= i < |rows| && rows[i] == r;
      assert all[offset + i] == r;
    }
  }

  lemma ReadsTheSlice(index: seq<IndexRow>, result: seq<Row>, offset: nat, size: nat)
    requires Indexes(index, result)
    ensures ReadPageIds(index, offset, size) == Ids(Slice(WriteIndex(result), offset, size))
  {
    var inPage := (r: IndexRow) => offset <= r.sequence < offset + size;
    var picked, rows := Select(index, inPage), Slice(WriteIndex(result), offset, size);
    PageOfIndex(result, offset, size);
    SelectElements(index, inPage);
    SelectKeepsNoRepeats(index, inPage);
    assert Elements(picked) == Elements(rows);
    SortOfDistinctIsStrict(picked, Sequence);
    SortIsSortedPermutation(picked, Sequence);
    StrictlySortedUnique(Sort(picked, Sequence), rows, Sequence);
  }

  /* ---- Rehydration ---- */

  function ById(scan: seq<Row>): map<int, Row> {
    if |scan| == 0 then map[] else ById(scan[..|scan| - 1])[scan[|scan| - 1].id := scan[|scan| - 1]]
  }

  /** The records found, in the order of the ids; an id with no record is passed over. */
  function Rehydrate(found: map<int, Row>, ids: seq<int>): seq<Row> {
    if |ids| == 0 then []
    else
      Rehydrate(found, ids[..|ids| - 1])
      + if ids[|ids| - 1] in found then [found[ids[|ids| - 1]]] else []
  }

  lemma {:induction false} FoundById(scan: seq<Row>, r: Row)
    requires r in Elements(scan) && DistinctKeys(Elements(scan), RowId)
    ensures r.id in ById(scan) && ById(scan)[r.id] == r
  {
    var last := scan[|scan| - 1];
    assert last in Elements(scan);
    if RowId(last) != RowId(r) {
      assert r in Elements(scan[..|scan| - 1]) by {
        var i :| 0 <= i < |scan| && scan[i] == r;
        assert scan[..|scan| - 1][i] == r;
      }
      assert Elements(scan[..|scan| - 1]) <= Elements(scan);
      FoundById(scan[..|scan| - 1], r);
    }
  }

  lemma {:induction false} RehydratesAll(found: map<int, Row>, ids: seq<int>, rows: seq<Row>)
    requires |ids| == |rows|
    requires forall i :: 0 <= i < |ids| ==> ids[i] in found && found[ids[i]] == rows[i]
    ensures Rehydrate(found, ids) == rows
  {
    if |ids| > 0 {
      RehydratesAll(found, ids[..|ids| - 1], rows[..|rows| - 1]);
      assert rows == rows[..|rows| - 1] + [rows[|rows| - 1]];
    }
  }

  /** The data a cursor is read against: every record of the result, each id once. */
  ghost predicate Holds(scan: seq<Row>, result: seq<Row>) {
    Elements(result) <= Elements(scan) && DistinctKeys(Elements(scan), RowId)
  }

  /** Reading a page of ids and rehydrating them gives the page of the result itself. */
  lemma RehydratedPageIsTheSlice(index: seq<IndexRow>, scan: seq<Row>, result: seq<Row>, offset: nat, size: nat)
    requires Indexes(index, result) && Holds(scan, result)
    ensures Rehydrate(ById(scan), ReadPageIds(index, offset, size)) == Slice(result, offset, size)
  {
    ReadsTheSlice(index, result, offset, size);
    var ids, rows := Ids(Slice(WriteIndex(result), offset, size)), Slice(result, offset, size);
    forall i | 0 <= i < |ids| ensures ids[i] in ById(scan) && ById(scan)[ids[i]] == rows[i] {
      assert rows[i] == result[offset + i] && result[offset + i] in Elements(result);
      FoundById(scan, rows[i]);
    }
    RehydratesAll(ById(scan), ids, rows);
  }

  /** How many ids of a page are found decides where the next page starts; a page none of whose ids is
      found leads back to itself. */
  lemma {:induction false} FoundRecords(found: map<int, Row>, ids: seq<int>)
    ensures |Rehydrate(found, ids)| <= |ids|
    ensures |Rehydrate(found, ids)| == |ids| <==> forall i :: 0 <= i < |ids| ==> ids[i] in found
    ensures Rehydrate(found, ids) == [] <==> forall i :: 0 <= i < |ids| ==> ids[i] !in found
  {
    if |ids| > 0 { FoundRecords(found, ids[..|ids| - 1]); }
  }

  /* ---- The endpoints ---- */

  /** Cursor rows, and the index files beside them. */
  class Paging {
    var cursors: map<nat, Cursor>
    var files: map<nat, seq<IndexRow>>
    var snapshot: int

    /** The first page. A result that does not fit leaves a cursor behind, with the index of the result
        as it comes back the second time, `again`; `locator` is the id drawn for it. */
    method Query(result: seq<Row>, again: seq<Row>, size: nat, locator: nat) returns (body: Body)
      requires size > 0 && locator !in cursors
      modifies this`cursors, this`files
      ensures body == Body(|result|, |result| <= size, Slice(result, 0, size),
                           if |result| <= size then None else Some(Locator(locator, size)))
      ensures if |result| <= size then cursors == old(cursors) && files == old(files)
              else
                && cursors == old(cursors)[locator := Cursor(size, |result|, snapshot)]
                && files == old(files)[locator := WriteIndex(again)]
    {
      var records := Slice(result, 0, size);
      var done := |records| >= |result|;
      if done { return Body(|result|, true, records, None); }
      files := files[locator := WriteIndex(again)];
      cursors := cursors[locator := Cursor(size, |result|, snapshot)];
      return Body(|result|, false, records, Some(Locator(locator, |records|)));
    }

    /** A later page, rehydrated from the data as scanned now. */
    method QueryMore(at: Locator, scan: seq<Row>) returns (body: Body)
      ensures body.InvalidLocator? <==>
        || at.Malformed? || at.cursor !in cursors || cursors[at.cursor].snapshot != snapshot
        || at.cursor !in files || at.offset >= cursors[at.cursor].total
      ensures body.Body? ==>
        var c := cursors[at.cursor];
        && body.total == c.total
        && body.records == Rehydrate(ById(scan), ReadPageIds(files[at.cursor], at.offset, c.batchSize))
        && body.done == (at.offset + |body.records| >= c.total)
        && body.next == if body.done then None else Some(Locator(at.cursor, at.offset + |body.records|))
    {
      if at.Malformed? || at.cursor !in cursors { return InvalidLocator; }
      var c := cursors[at.cursor];
      if c.snapshot != snapshot || at.cursor !in files { return InvalidLocator; }
      if at.offset >= c.total { return InvalidLocator; }
      var ids := ReadPageIds(files[at.cursor], at.offset, c.batchSize);
      var records := Rehydrate(ById(scan), ids);
      var done := at.offset + |records| >= c.total;
      return Body(c.total, done, records, if done then None else Some(Locator(at.cursor, at.offset + |records|)));
    }

    /** So many requests from a locator on, over data that holds the records `found`. */
    method Follow(locator: nat, from: nat, scans: nat -> seq<Row>, requests: nat, ghost found: map<int, Row>,
        ghost result: seq<Row>)
      returns (offset: nat)
      requires locator in cursors && locator in files && cursors[locator].snapshot == snapshot
      requires cursors[locator].total == |result| && Indexes(files[locator], result)
      requires from < |result| && forall page :: ById(scans(page)) == found
      ensures offset == Walk(found, Ids(WriteIndex(result)), cursors[locator].batchSize, from, requests)
    {
      hide Indexes, ReadPageIds, Rehydrate, ById, WriteIndex, Ids, Slice;
      offset := from;
      var size, total := cursors[locator].batchSize, cursors[locator].total;
      ghost var ids := Ids(WriteIndex(result));
      for page := 0 to requests
        invariant offset == Walk(found, ids, size, from, page) <= total == |ids|
      {
        PageFits(found, ids, size, offset);
        if offset < total {
          ReadsTheSlice(files[locator], result, offset, size);
          SliceOfIds(WriteIndex(result), offset, size);
          var body := QueryMore(Locator(locator, offset), scans(page));
          offset := if body.next.Some? then body.next.value.offset else total;
        }
      }
    }

    /** Following `nextRecordsUrl` to the end ends, whatever order each page finds the data in.  What it
        reads is the first page of the one evaluation and the rest of the other. */
    method ReadAll(result: seq<Row>, again: seq<Row>, scans: nat -> seq<Row>, size: nat, locator: nat)
      returns (read: seq<Row>)
      requires size > 0 && locator !in cursors && |again| == |result|
      requires forall page :: Holds(scans(page), again)
      modifies this`cursors, this`files
      ensures read == Spliced(result, again, size)
    {
      hide Holds, Indexes, ReadPageIds, Rehydrate, ById;
      var body := Query(result, again, size, locator);
      WriteIndexIndexes(again);
      read := body.records;
      ghost var whole := Spliced(result, again, size);
      var page := 0;
      while body.next.Some?
        invariant body.Body? && |read| <= |whole| == |result| && read == whole[..|read|]
        invariant body.next.Some? ==>
          && size <= |read| < |result| && body.next == Some(Locator(locator, |read|))
          && locator in cursors && cursors[locator] == Cursor(size, |result|, snapshot)
          && locator in files && files[locator] == WriteIndex(again)
        invariant body.next.None? ==> |read| == |result|
        decreases |result| - |read|, body.next.Some?
      {
        RehydratedPageIsTheSlice(WriteIndex(again), scans(page), again, |read|, size);
        SplicedSlice(result, again, size, |read|);
        NextSlice(whole, |read|, size);
        body := QueryMore(body.next.value, scans(page));
        read, page := read + body.records, page + 1;
      }
    }
  }

  lemma PageFits(found: map<int, Row>, ids: seq<int>, size: nat, at: nat)
    requires at <= |ids|
    ensures at + |Rehydrate(found, Slice(ids, at, size))| <= |ids|
  {
    FoundRecords(found, Slice(ids, at, size));
  }

  lemma SliceOfIds(rows: seq<IndexRow>, offset: nat, size: nat)
    ensures Ids(Slice(rows, offset, size)) == Slice(Ids(rows), offset, size)
  {
  }

  /** The first page of one evaluation and everything after it of another. */
  function Spliced(result: seq<Row>, again: seq<Row>, size: nat): seq<Row> {
    if |result| <= size then result else result[..size] + Slice(again, size, |again|)
  }

  lemma SplicedSlice(result: seq<Row>, again: seq<Row>, size: nat, offset: nat)
    requires |again| == |result| && size <= offset < |result|
    ensures Slice(Spliced(result, again, size), offset, size) == Slice(again, offset, size)
  {
    assert forall i :: size <= i < |result| ==> Spliced(result, again, size)[i] == again[i];
  }

  /* ---- When following the locators ends ---- */

  /** The offset after so many pages of ids `index`, starting at `from`. */
  function Walk(found: map<int, Row>, ids: seq<int>, size: nat, from: nat, pages: nat): nat {
    if pages == 0 then from
    else
      var at := Walk(found, ids, size, from, pages - 1);
      at + |Rehydrate(found, Slice(ids, at, size))|
  }

  ghost predicate Ends(found: map<int, Row>, ids: seq<int>, size: nat, from: nat) {
    exists n: nat :: Walk(found, ids, size, from, n) >= |ids|
  }

  /** Some record of the page of ids at `at` is found. */
  predicate HasRecord(found: map<int, Row>, ids: seq<int>, size: nat, at: nat) {
    exists k :: at <= k < |ids| && k < at + size && ids[k] in found
  }

  lemma EmptyPage(found: map<int, Row>, ids: seq<int>, size: nat, at: nat)
    ensures Rehydrate(found, Slice(ids, at, size)) == [] <==> !HasRecord(found, ids, size, at)
  {
    var page := Slice(ids, at, size);
    FoundRecords(found, page);
    if k :| at <= k < |ids| && k < at + size && ids[k] in found { assert page[k - at] == ids[k]; }
    if i :| 0 <= i < |page| && page[i] in found { assert ids[at + i] == page[i]; }
  }

  lemma {:induction false} RehydrateAppend(found: map<int, Row>, a: seq<int>, b: seq<int>)
    ensures Rehydrate(found, a + b) == Rehydrate(found, a) + Rehydrate(found, b)
  {
    if |b| == 0 {
      assert a + b == a;
    } else {
      RehydrateAppend(found, a, b[..|b| - 1]);
      assert (a + b)[..|a + b| - 1] == a + b[..|b| - 1];
    }
  }

  /** A walk moves by what it finds, so it cannot step over a page of ids that are all gone. */
  lemma {:induction false} WalkStopsBefore(
    found: map<int, Row>, ids: seq<int>, size: nat, from: nat, gone: nat, pages: nat)
    requires from <= gone < |ids| && !HasRecord(found, ids, size, gone)
    ensures Walk(found, ids, size, from, pages) <= gone
  {
    hide Slice, HasRecord, Rehydrate;
    if pages > 0 {
      WalkStopsBefore(found, ids, size, from, gone, pages - 1);
      PageStopsBefore(found, ids, size, Walk(found, ids, size, from, pages - 1), gone);
    }
  }

  lemma PageStopsBefore(found: map<int, Row>, ids: seq<int>, size: nat, at: nat, gone: nat)
    requires at <= gone < |ids| && !HasRecord(found, ids, size, gone)
    ensures at + |Rehydrate(found, Slice(ids, at, size))| <= gone
  {
    var page := Slice(ids, at, size);
    var n := if gone - at <= |page| then gone - at else |page|;
    RestIsGone(found, ids, size, at, gone, n);
    hide *;
    assert page == page[..n] + page[n..];
    RehydrateAppend(found, page[..n], page[n..]);
    NoMoreThanIds(found, page[..n]);
  }

  lemma NoMoreThanIds(found: map<int, Row>, ids: seq<int>)
    ensures |Rehydrate(found, ids)| <= |ids|
  {
    FoundRecords(found, ids);
  }

  lemma RestIsGone(found: map<int, Row>, ids: seq<int>, size: nat, at: nat, gone: nat, n: nat)
    requires at <= gone < |ids| && !HasRecord(found, ids, size, gone)
    requires n <= |Slice(ids, at, size)| && (n == gone - at || n == |Slice(ids, at, size)|)
    ensures Rehydrate(found, Slice(ids, at, size)[n..]) == []
  {
    var rest := Slice(ids, at, size)[n..];
    forall i | 0 <= i < |rest| ensures rest[i] !in found {
      assert rest[i] == ids[at + n + i];
    }
    FoundRecords(found, rest);
  }

  /** Where every page of ids finds something, each request moves on. */
  lemma {:induction false} WalkMovesOn(found: map<int, Row>, ids: seq<int>, size: nat, from: nat, pages: nat)
    requires forall at :: from <= at < |ids| ==> HasRecord(found, ids, size, at)
    ensures Walk(found, ids, size, from, pages) >= |ids| || Walk(found, ids, size, from, pages) >= from + pages
  {
    hide Slice, HasRecord, Rehydrate;
    if pages > 0 {
      WalkMovesOn(found, ids, size, from, pages - 1);
      var at := Walk(found, ids, size, from, pages - 1);
      EmptyPage(found, ids, size, at);
    }
  }

  /** With records gone, following the locators ends exactly when no page of ids, wherever it starts,
      is found empty; else it comes to such a page and asks for it forever. */
  lemma ReadingEndsExactly(found: map<int, Row>, ids: seq<int>, size: nat, from: nat)
    ensures Ends(found, ids, size, from) <==> forall at :: from <= at < |ids| ==> HasRecord(found, ids, size, at)
  {
    if forall at :: from <= at < |ids| ==> HasRecord(found, ids, size, at) {
      WalkMovesOn(found, ids, size, from, |ids|);
    } else {
      var gone: nat :| from <= gone < |ids| && !HasRecord(found, ids, size, gone);
      forall n: nat ensures Walk(found, ids, size, from, n) <= gone {
        WalkStopsBefore(found, ids, size, from, gone, n);
      }
    }
  }

  /** The failure as it runs: pages of one, and the second record is deleted after the first page. */
  method GoneRecordIsAskedFor(paging: Paging, locator: nat, requests: nat) returns (offset: nat)
    requires locator !in paging.cursors
    modifies paging`cursors, paging`files
    ensures offset == 1
  {
    var result := [NORTH, SOUTH];
    var ids := Ids(WriteIndex(result));
    WriteIndexIndexes(result);
    var body := paging.Query(result, result, 1, locator);
    assert [NORTH][..0] == [] && ById([NORTH]) == map[NORTH.id := NORTH];
    assert ids == [NORTH.id, SOUTH.id];
    WalkStopsBefore(ById([NORTH]), ids, 1, 1, 1, requests);
    WalkGoesForward(ById([NORTH]), ids, 1, 1, requests);
    offset := paging.Follow(locator, 1, page => [NORTH], requests, ById([NORTH]), result);
  }

  lemma {:induction false} WalkGoesForward(found: map<int, Row>, ids: seq<int>, size: nat, from: nat, pages: nat)
    ensures Walk(found, ids, size, from, pages) >= from
  {
    hide Rehydrate, Slice;
    if pages > 0 { WalkGoesForward(found, ids, size, from, pages - 1); }
  }

  /* ---- When every record is read once ---- */

  /** The result fits one page, or the page ends between two sort keys. */
  ghost predicate FirstPageIsApart(q: Query, data: set<Row>, size: nat)
    requires DistinctKeys(data, RowId) && size > 0
  {
    var one, at := Canonical(q, data), q.offset + size;
    || CutSize(q, |one|) <= size
    || (q.order.Some? && at < |one| && q.order.value(one[at - 1]) != q.order.value(one[at]))
  }

  lemma ResultsAreAsLong(q: Query, data: set<Row>, a: seq<Row>, b: seq<Row>)
    requires Scans(q, data, a) && Scans(q, data, b)
    ensures |a| == |b| == |data| && |Cut(q, a)| == |Cut(q, b)| == CutSize(q, |data|)
  {
    NoRepeatsLength(a);
    NoRepeatsLength(b);
    CutIsWindow(q, a);
    CutIsWindow(q, b);
  }

  /** Rows of one scan up to a place where the key changes, and of another from there on, are a scan. */
  lemma JoinedIsAScan(q: Query, data: set<Row>, a: seq<Row>, b: seq<Row>, at: nat)
    requires Scans(q, data, a) && Scans(q, data, b) && q.order.Some? && 0 < at < |data|
    requires |a| == |b| == |data| && q.order.value(a[at - 1]) < q.order.value(b[at])
    ensures Scans(q, data, a[..at] + b[at..])
  {
    var c := a[..at] + b[at..];
    var key := q.order.value;
    forall i, j | 0 <= i < at <= j < |c| ensures key(c[i]) < key(c[j]) {
      assert key(a[i]) <= key(a[at - 1]) && key(b[at]) <= key(b[j]);
    }
    forall i, j | 0 <= i < j < |c| ensures c[i] != c[j] && key(c[i]) <= key(c[j]) {
      if j < at { assert c[i] == a[i] && c[j] == a[j]; }
      if at <= i { assert c[i] == b[i] && c[j] == b[j]; }
    }
    forall x | x in Elements(c) ensures x in data {
      var i :| 0 <= i < |c| && c[i] == x;
      if i < at { ScanHolds(q, data, a, i); } else { ScanHolds(q, data, b, i); }
    }
    NoRepeatsLength(c);
    SameSize(Elements(c), data);
  }

  lemma SameSize<T>(a: set<T>, b: set<T>)
    requires a <= b && |a| == |b|
    ensures a == b
  {
    assert b == a + (b - a);
  }

  /** Then what is read is one evaluation's result: nothing twice, and nothing that is not in it. */
  lemma ReadIsOneResult(q: Query, data: set<Row>, size: nat, a: seq<Row>, b: seq<Row>) returns (c: seq<Row>)
    requires DistinctKeys(data, RowId) && size > 0 && FirstPageIsApart(q, data, size)
    requires Scans(q, data, a) && Scans(q, data, b)
    ensures Scans(q, data, c) && Spliced(Cut(q, a), Cut(q, b), size) == Cut(q, c)
  {
    var one, at := Canonical(q, data), q.offset + size;
    CanonicalIsAScan(q, data);
    ResultsAreAsLong(q, data, a, b);
    ResultsAreAsLong(q, data, a, one);
    if |Cut(q, one)| <= size {
      c := a;
    } else {
      hide Canonical, Scans, Cut;
      SameKeys(q, data, a, one, at - 1);
      SameKeys(q, data, one, a, at - 1);
      SameKeys(q, data, b, one, at);
      SameKeys(q, data, one, b, at);
      KeysAscend(q, data, one, at);
      c := a[..at] + b[at..];
      JoinedIsAScan(q, data, a, b, at);
      SplicedIsCut(q, a, b, size);
    }
  }

  lemma KeysAscend(q: Query, data: set<Row>, one: seq<Row>, at: nat)
    requires Scans(q, data, one) && q.order.Some? && 0 < at < |one|
    ensures q.order.value(one[at - 1]) <= q.order.value(one[at])
  {
  }

  lemma SplicedIsCut(q: Query, a: seq<Row>, b: seq<Row>, size: nat)
    requires |a| == |b| && |Cut(q, a)| > size && |Cut(q, a)| == |Cut(q, b)|
    requires q.offset + size <= |a|
    ensures Spliced(Cut(q, a), Cut(q, b), size) == Cut(q, a[..q.offset + size] + b[q.offset + size..])
  {
    var at := q.offset + size;
    var c := a[..at] + b[at..];
    CutIsWindow(q, a);
    CutIsWindow(q, b);
    CutIsWindow(q, c);
    hide Cut;
    var read, cut := Spliced(Cut(q, a), Cut(q, b), size), Cut(q, c);
    assert Slice(Cut(q, b), size, |Cut(q, b)|) == Cut(q, b)[size..];
    forall i: nat | i < |cut| ensures read[i] == cut[i] {
      assert IsAt(q, a, i) && IsAt(q, b, i) && IsAt(q, c, i);
    }
  }

  lemma CutHasNoRepeats(q: Query, data: set<Row>, scan: seq<Row>)
    requires Scans(q, data, scan)
    ensures NoRepeats(Cut(q, scan))
  {
    CutIsWindow(q, scan);
    var cut := Cut(q, scan);
    hide Cut;
    forall i: nat, j: nat | i < j < |cut| ensures cut[i] != cut[j] {
      assert IsAt(q, scan, i) && IsAt(q, scan, j);
    }
  }

  /** What reading to the end returns when the page query evaluates to `a` and the index to `b`. */
  ghost predicate ReadsOnce(q: Query, a: seq<Row>, b: seq<Row>, size: nat) {
    NoRepeats(Spliced(Cut(q, a), Cut(q, b), size))
  }

  ghost predicate AlwaysReadsOnce(q: Query, data: set<Row>, size: nat) {
    forall a, b :: Scans(q, data, a) && Scans(q, data, b) ==> ReadsOnce(q, a, b, size)
  }

  /** Whatever the two evaluations, no record is read twice exactly when the result fits one page or
      the first page ends between two sort keys; without an ORDER BY, when it fits one page. */
  lemma PagesReadOnceExactly(q: Query, data: set<Row>, size: nat)
    requires DistinctKeys(data, RowId) && size > 0
    ensures AlwaysReadsOnce(q, data, size) <==> FirstPageIsApart(q, data, size)
  {
    if FirstPageIsApart(q, data, size) {
      forall a, b | Scans(q, data, a) && Scans(q, data, b) ensures ReadsOnce(q, a, b, size) {
        var c := ReadIsOneResult(q, data, size, a, b);
        CutHasNoRepeats(q, data, c);
      }
    } else {
      var a, b := TieIsReadTwice(q, data, size);
      assert !ReadsOnce(q, a, b, size);
    }
  }

  /** The rows on both sides of the page's end change places between the evaluations. */
  lemma TieIsReadTwice(q: Query, data: set<Row>, size: nat) returns (a: seq<Row>, b: seq<Row>)
    requires DistinctKeys(data, RowId) && size > 0 && !FirstPageIsApart(q, data, size)
    ensures Scans(q, data, a) && Scans(q, data, b) && !ReadsOnce(q, a, b, size)
  {
    var at := q.offset + size;
    a := Canonical(q, data);
    CanonicalIsAScan(q, data);
    CutReaches(q, a, size);
    b := Swapped(a, at - 1, at);
    hide Canonical, Scans, Swapped, ReadsOnce;
    SwappedIsAScan(q, data, a, at - 1, at);
    SwapIsReadTwice(q, a, size);
  }

  lemma CutReaches(q: Query, a: seq<Row>, size: nat)
    requires CutSize(q, |a|) > size
    ensures q.offset + size < |a|
  {
  }

  lemma SwapIsReadTwice(q: Query, a: seq<Row>, size: nat)
    requires size > 0 && CutSize(q, |a|) > size && q.offset + size < |a|
    ensures !ReadsOnce(q, a, Swapped(a, q.offset + size - 1, q.offset + size), size)
  {
    var at := q.offset + size;
    var b := Swapped(a, at - 1, at);
    CutIsWindow(q, a);
    CutIsWindow(q, b);
    hide Cut, CutSize, InWindow, Swapped;
    assert IsAt(q, a, size - 1) && IsAt(q, b, size);
    SplicedAt(Cut(q, a), Cut(q, b), size);
  }

  lemma SplicedAt(result: seq<Row>, again: seq<Row>, size: nat)
    requires 0 < size < |result| == |again| && result[size - 1] == again[size]
    ensures !NoRepeats(Spliced(result, again, size))
  {
    var read := Spliced(result, again, size);
    assert read[size - 1] == result[size - 1] && read[size] == again[size];
  }

  /** The failure as it runs: two rows that tie, pages of one, and the index in the other order. */
  method TieReadsARowTwice(paging: Paging, locator: nat) returns (read: seq<Row>)
    requires locator !in paging.cursors
    modifies paging`cursors, paging`files
    ensures Scans(BY_STAGE, {NORTH, SOUTH}, [NORTH, SOUTH]) && Scans(BY_STAGE, {NORTH, SOUTH}, [SOUTH, NORTH])
    ensures read == [NORTH, NORTH]
  {
    TwoScans();
    assert [SOUTH, NORTH][0] == SOUTH && [SOUTH, NORTH][1] == NORTH;
    var result, again := Cut(BY_STAGE, [NORTH, SOUTH]), Cut(BY_STAGE, [SOUTH, NORTH]);
    read := paging.ReadAll(result, again, page => [NORTH, SOUTH], 1, locator);
  }

  lemma NextSlice(result: seq<Row>, offset: nat, size: nat)
    requires offset < |result| && size > 0
    ensures var page := Slice(result, offset, size);
      |page| > 0 && offset + |page| <= |result| && result[..offset] + page == result[..offset + |page|]
  {
  }
}
