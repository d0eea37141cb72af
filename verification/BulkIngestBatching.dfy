/** When the batch size shows in the outcomes of an ingest job. */
module BulkIngestBatching {
  import opened BulkIngest
  import opened BulkIngestRun

  /** Every row of the file prepared; row numbers start at 1. */
  function File(spec: Spec, rows: seq<Row>): (p: seq<Prepared>)
    ensures |p| == |rows|
  {
    Prepare(spec, 1, rows)
  }

  ghost predicate FirstAt(p: seq<Prepared>, id: string, i: nat) {
    i < |p| && Has(p[i], id) && forall k :: 0 <= k < i ==> !Has(p[k], id)
  }

  ghost predicate Repeated(p: seq<Prepared>, id: string) {
    exists i, j :: 0 <= i < j < |p| && Has(p[i], id) && Has(p[j], id)
  }

  /** Some id that is not in the table stands on two valid rows. */
  ghost predicate RepeatsNewId(spec: Spec, table: Table, rows: seq<Row>) {
    exists id :: id !in table && Repeated(File(spec, rows), id)
  }

  lemma {:induction false} FirstExists(p: seq<Prepared>, id: string, i: nat) returns (first: nat)
    requires i < |p| && Has(p[i], id)
    ensures FirstAt(p, id, first) && first <= i
  {
    if k :| 0 <= k < i && Has(p[k], id) { first := FirstExists(p, id, k); } else { first := i; }
  }

  lemma ChunkOfFile(spec: Spec, rows: seq<Row>, from: nat, size: nat)
    requires from < |rows| && size > 0
    ensures var c := Chunk(rows, from, size);
      from + |c| <= |rows| && Prepare(spec, from + 1, c) == File(spec, rows)[from..from + |c|]
  {
    hide PrepareRow;
    var c := Chunk(rows, from, size);
    assert c == rows[from..from + |c|];
    hide Chunk;
    var one, other := Prepare(spec, from + 1, c), File(spec, rows)[from..from + |c|];
    forall i | 0 <= i < |c| ensures one[i] == other[i] {
      assert other[i] == File(spec, rows)[from + i];
    }
    assert one == other;
  }

  /* ---- Without a repeated new id, every batch size gives the same outcomes ---- */

  /** Up to the checkpoint, outcomes and table are those of the file taken as one batch. */
  ghost predicate AlongFile(p: seq<Prepared>, table: Table, s: Durable) {
    && s.csvRow <= |p|
    && s.results == Numbered(1, Outcomes(p, table))[..s.csvRow]
    && forall id :: id in s.table <==> id in table || HasAmong(p[..s.csvRow], id)
  }

  predicate HasAmong(p: seq<Prepared>, id: string) {
    exists k :: 0 <= k < |p| && Has(p[k], id)
  }

  lemma CountedTwice(p: seq<Prepared>, from: nat, to: nat, id: string)
    requires from <= to <= |p| && Occurrences(p[from..to], id) >= 2
    ensures Repeated(p, id)
  {
    var a, b := TwiceIsTwoRows(p[from..to], id);
    assert Has(p[from + a], id) && Has(p[from + b], id);
  }

  lemma SeenBefore(p: seq<Prepared>, from: nat, i: nat, id: string)
    requires from <= i < |p| && HasAmong(p[..from], id) && Has(p[i], id)
    ensures Repeated(p, id)
  {
    var k :| 0 <= k < from && Has(p[..from][k], id);
    assert Has(p[k], id);
  }

  lemma RejectedAlike(p: seq<Prepared>, table: Table, s: Durable, from: nat, to: nat, i: nat)
    requires AlongFile(p, table, s) && from == s.csvRow <= i < to <= |p| && p[i].Good?
    requires forall id :: id !in table ==> !Repeated(p, id)
    ensures Rejected(p[from..to], s.table, p[i].id) <==> Rejected(p, table, p[i].id)
  {
    var id := p[i].id;
    hide Repeated, Occurrences, HasAmong;
    assert p[0..|p|] == p;
    if Occurrences(p, id) >= 2 { CountedTwice(p, 0, |p|, id); }
    if Occurrences(p[from..to], id) >= 2 { CountedTwice(p, from, to, id); }
    if HasAmong(p[..from], id) { SeenBefore(p, from, i, id); }
  }

  lemma ChunkOutcomes(p: seq<Prepared>, table: Table, s: Durable, to: nat)
    requires AlongFile(p, table, s) && s.csvRow <= to <= |p|
    requires forall id :: id !in table ==> !Repeated(p, id)
    ensures Outcomes(p[s.csvRow..to], s.table) == Outcomes(p, table)[s.csvRow..to]
  {
    var from := s.csvRow;
    var a, b := Outcomes(p[from..to], s.table), Outcomes(p, table)[from..to];
    hide AlongFile, Rejected;
    forall i | 0 <= i < to - from ensures a[i] == b[i] {
      assert p[from..to][i] == p[from + i];
      if p[from + i].Good? { RejectedAlike(p, table, s, from, to, from + i); }
    }
  }

  lemma NumberedPart(o: seq<RowOutcome>, from: nat, to: nat)
    requires from <= to <= |o|
    ensures Numbered(1, o)[..from] + Numbered(from + 1, o[from..to]) == Numbered(1, o)[..to]
  {
  }

  lemma BatchOfFile(spec: Spec, rows: seq<Row>, s: Durable, size: nat)
    requires s.csvRow < |rows| && size > 0
    ensures var to := s.csvRow + |Chunk(rows, s.csvRow, size)|;
      to <= |rows|
      && var o := Outcomes(File(spec, rows)[s.csvRow..to], s.table);
         var s' := ApplyBatch(spec, s, Chunk(rows, s.csvRow, size));
         s'.csvRow == to && s'.table == Insert(s.table, o) && s'.results == s.results + Numbered(s.csvRow + 1, o)
  {
    ChunkOfFile(spec, rows, s.csvRow, size);
    hide File, Prepare, Chunk, Outcomes, Insert, Numbered;
  }

  lemma GrowsAlong(p: seq<Prepared>, table: Table, s: Durable, s': Durable, to: nat)
    requires AlongFile(p, table, s) && s.csvRow <= to <= |p| && s'.csvRow == to
    requires var o := Outcomes(p[s.csvRow..to], s.table);
      s'.table == Insert(s.table, o) && s'.results == s.results + Numbered(s.csvRow + 1, o)
    requires forall id :: id !in table ==> !Repeated(p, id)
    ensures AlongFile(p, table, s')
  {
    hide Repeated, Outcomes, Numbered, HasAmong, Insert, Adds;
    ChunkOutcomes(p, table, s, to);
    var o := Outcomes(p, table);
    NumberedPart(o, s.csvRow, to);
    forall id ensures id in s'.table <==> id in table || HasAmong(p[..to], id) {
      InsertedIds(s.table, o[s.csvRow..to], id);
      AddedAmong(p, table, s, to, id);
    }
  }

  lemma ChunkStaysAlong(spec: Spec, rows: seq<Row>, table: Table, s: Durable, size: nat)
    requires AlongFile(File(spec, rows), table, s) && s.csvRow < |rows| && size > 0
    requires !RepeatsNewId(spec, table, rows)
    ensures AlongFile(File(spec, rows), table, ApplyBatch(spec, s, Chunk(rows, s.csvRow, size)))
  {
    hide File, Repeated, Outcomes, ApplyBatch, AlongFile;
    BatchOfFile(spec, rows, s, size);
    var batch := Chunk(rows, s.csvRow, size);
    GrowsAlong(File(spec, rows), table, s, ApplyBatch(spec, s, batch), s.csvRow + |batch|);
  }

  lemma AddsOnlyItsRows(p: seq<Prepared>, table: Table, from: nat, to: nat, id: string)
    requires from <= to <= |p| && Adds(Outcomes(p, table)[from..to], id)
    ensures HasAmong(p[..to], id)
  {
    var o := Outcomes(p, table)[from..to];
    var i :| 0 <= i < to - from && o[i].Success? && o[i].id == id;
    assert o[i] == Outcomes(p, table)[from + i];
    assert Has(p[..to][from + i], id);
  }

  lemma AddsNewIds(p: seq<Prepared>, table: Table, from: nat, to: nat, id: string, k: nat)
    requires from <= k < to <= |p| && Has(p[k], id) && id !in table && !Repeated(p, id)
    ensures Adds(Outcomes(p, table)[from..to], id)
  {
    assert p[0..|p|] == p;
    if Occurrences(p, id) >= 2 { CountedTwice(p, 0, |p|, id); }
    assert Outcomes(p, table)[from..to][k - from] == Outcomes(p, table)[k];
  }

  lemma AddedAmong(p: seq<Prepared>, table: Table, s: Durable, to: nat, id: string)
    requires AlongFile(p, table, s) && s.csvRow <= to <= |p|
    requires forall x :: x !in table ==> !Repeated(p, x)
    ensures id in s.table || Adds(Outcomes(p, table)[s.csvRow..to], id) <==> id in table || HasAmong(p[..to], id)
  {
    var from := s.csvRow;
    if Adds(Outcomes(p, table)[from..to], id) { AddsOnlyItsRows(p, table, from, to, id); }
    if HasAmong(p[..from], id) {
      var k :| 0 <= k < from && Has(p[..from][k], id);
      assert Has(p[..to][k], id);
    }
    if HasAmong(p[..to], id) && id !in table {
      var k :| 0 <= k < to && Has(p[..to][k], id);
      if k < from { assert Has(p[..from][k], id); } else { AddsNewIds(p, table, from, to, id, k); }
    }
  }

  /** Whatever the size, a run's results are those of the file in one batch, up to where it stops. */
  lemma {:induction false} SameForEverySize(spec: Spec, rows: seq<Row>, table: Table, s: Durable, size: nat)
    requires AlongFile(File(spec, rows), table, s) && size > 0 && !RepeatsNewId(spec, table, rows)
    ensures AlongFile(File(spec, rows), table, Ingest(spec, s, rows, size).0)
    ensures !AnyWide(rows) ==> Ingest(spec, s, rows, size).0.csvRow == |rows|
    decreases |rows| - s.csvRow
  {
    hide RepeatsNewId, AlongFile, File, ApplyBatch, AnyWide;
    assert s.csvRow <= |rows| by { AlongStaysInFile(spec, rows, table, s); }
    if s.csvRow < |rows| {
      var c := Chunk(rows, s.csvRow, size);
      if !AnyWide(rows) { NoneWide(rows, s.csvRow, size); }
      if !AnyWide(c) {
        ChunkStaysAlong(spec, rows, table, s, size);
        AlongStaysInFile(spec, rows, table, ApplyBatch(spec, s, c));
        BatchOfFile(spec, rows, s, size);
        SameForEverySize(spec, rows, table, ApplyBatch(spec, s, c), size);
      }
    }
  }

  lemma AlongStaysInFile(spec: Spec, rows: seq<Row>, table: Table, s: Durable)
    requires AlongFile(File(spec, rows), table, s)
    ensures s.csvRow <= |rows|
  {
  }

  lemma NoneWide(rows: seq<Row>, from: nat, size: nat)
    requires from < |rows| && size > 0 && !AnyWide(rows)
    ensures !AnyWide(Chunk(rows, from, size))
  {
    var c := Chunk(rows, from, size);
    assert forall i :: 0 <= i < |c| ==> c[i] == rows[from + i];
  }

  /* ---- A row that is too wide ---- */

  predicate FirstWide(rows: seq<Row>, w: nat) {
    w < |rows| && rows[w].wide && forall k :: 0 <= k < w ==> !rows[k].wide
  }

  lemma FirstWideExists(rows: seq<Row>) returns (w: nat)
    requires AnyWide(rows)
    ensures FirstWide(rows, w)
  {
    var i :| 0 <= i < |rows| && rows[i].wide;
    w := 0;
    while !rows[w].wide
      invariant w <= i && forall k :: 0 <= k < w ==> !rows[k].wide
      decreases i - w
    {
      w := w + 1;
    }
  }

  /** How many of `n` rows fill whole batches. */
  function InWholeBatches(n: nat, size: nat): (r: nat)
    requires size > 0
    ensures r <= n < r + size
  {
    if n < size then 0 else size + InWholeBatches(n - size, size)
  }

  /** Every batch before the one that holds it is committed, and none after. */
  lemma {:induction false} WideRowCuts(spec: Spec, rows: seq<Row>, s: Durable, size: nat, w: nat)
    requires size > 0 && FirstWide(rows, w) && s.csvRow <= w
    ensures Ingest(spec, s, rows, size).0.csvRow == s.csvRow + InWholeBatches(w - s.csvRow, size)
    ensures Ingest(spec, s, rows, size).1
    decreases w - s.csvRow
  {
    hide ApplyBatch, AnyWide, FirstWide, File, Chunk;
    WideChunk(rows, s.csvRow, size, w);
    if s.csvRow + size <= w {
      BatchOfFile(spec, rows, s, size);
      WideRowCuts(spec, rows, ApplyBatch(spec, s, Chunk(rows, s.csvRow, size)), size, w);
    }
  }

  lemma WideChunk(rows: seq<Row>, from: nat, size: nat, w: nat)
    requires size > 0 && FirstWide(rows, w) && from <= w
    ensures from < |rows| && (AnyWide(Chunk(rows, from, size)) <==> w < from + size)
    ensures from + size <= w ==> |Chunk(rows, from, size)| == size
  {
    var c := Chunk(rows, from, size);
    assert forall i :: 0 <= i < |c| ==> c[i] == rows[from + i];
    if w < from + size { assert c[w - from] == rows[w]; }
  }

  lemma {:induction false} SingleRowsAreBatches(n: nat)
    ensures InWholeBatches(n, 1) == n
  {
    if n > 0 { SingleRowsAreBatches(n - 1); }
  }

  /* ---- With one, they differ ---- */

  lemma {:induction false} ResultsGrow(spec: Spec, s: Durable, rows: seq<Row>, size: nat)
    requires size > 0
    ensures s.results <= Ingest(spec, s, rows, size).0.results
    decreases |rows| - s.csvRow
  {
    if s.csvRow < |rows| && !AnyWide(Chunk(rows, s.csvRow, size)) {
      ResultsGrow(spec, ApplyBatch(spec, s, Chunk(rows, s.csvRow, size)), rows, size);
    }
  }

  /** Row by row, the first row with a new id succeeds. */
  lemma {:induction false} FirstSucceeds(spec: Spec, rows: seq<Row>, s: Durable, id: string, i: nat)
    requires FirstAt(File(spec, rows), id, i) && s.csvRow <= i && forall k :: 0 <= k <= i ==> !rows[k].wide
    requires |s.results| == s.csvRow && id !in s.table
    ensures var r := Ingest(spec, s, rows, 1).0.results; i < |r| && r[i].outcome.Success?
    decreases i - s.csvRow
  {
    var p := File(spec, rows);
    var c := Chunk(rows, s.csvRow, 1);
    assert c == [rows[s.csvRow]];
    ChunkOfFile(spec, rows, s.csvRow, 1);
    var one := p[s.csvRow..s.csvRow + 1];
    var o := Outcomes(one, s.table);
    var s' := ApplyBatch(spec, s, c);
    assert Ingest(spec, s, rows, 1) == Ingest(spec, s', rows, 1);
    assert one[0] == p[s.csvRow] && Occurrences(one, id) <= 1 by { assert one[..0] == []; }
    if s.csvRow == i {
      assert s'.results[i].outcome == o[0];
      ResultsGrow(spec, s', rows, 1);
    } else {
      assert !Adds(o, id);
      InsertedIds(s.table, o, id);
      FirstSucceeds(spec, rows, s', id, i);
    }
  }

  /** All in one batch, every row with a repeated id fails. */
  lemma RepeatedIsRejected(p: seq<Prepared>, table: Table, i: nat, id: string)
    requires i < |p| && Has(p[i], id) && Repeated(p, id)
    ensures Outcomes(p, table)[i] == Duplicate(id)
  {
    var a, b :| 0 <= a < b < |p| && Has(p[a], id) && Has(p[b], id);
    OccursTwice(p, a, b, id);
  }

  lemma RepeatedFailTogether(spec: Spec, rows: seq<Row>, table: Table, i: nat, id: string)
    requires |rows| > 0 && !AnyWide(rows) && i < |rows| && Has(File(spec, rows)[i], id)
        && Repeated(File(spec, rows), id)
    ensures var r := Ingest(spec, Start(table), rows, |rows|).0.results; i < |r| && r[i].outcome == Duplicate(id)
  {
    var p := File(spec, rows);
    hide File, Outcomes, Repeated, ApplyBatch, AnyWide;
    RepeatedIsRejected(p, table, i, id);
    WholeFile(spec, rows, table);
    NoneWide(rows, 0, |rows|);
    assert Chunk(rows, 0, |rows|) == rows;
    assert Ingest(spec, ApplyBatch(spec, Start(table), rows), rows, |rows|)
        == (ApplyBatch(spec, Start(table), rows), false);
  }

  lemma WholeFile(spec: Spec, rows: seq<Row>, table: Table)
    ensures ApplyBatch(spec, Start(table), rows).results == Numbered(1, Outcomes(File(spec, rows), table))
    ensures ApplyBatch(spec, Start(table), rows).csvRow == |rows|
  {
    assert forall r: seq<RowResult> :: [] + r == r;
  }

  ghost predicate SizesAgree(spec: Spec, table: Table, rows: seq<Row>) {
    forall size: nat :: size > 0 ==>
      Ingest(spec, Start(table), rows, size).0.results == Ingest(spec, Start(table), rows, 1).0.results
  }

  /** The batch size does not show in the outcomes exactly when the first row that is too wide, if
      there is one, is the first of all, or there is none and no two valid rows share an id that the
      table did not hold: apart those are told apart by order, together both fail. */
  lemma BatchSizeMattersExactly(spec: Spec, table: Table, rows: seq<Row>)
    ensures SizesAgree(spec, table, rows)
       <==> if AnyWide(rows) then rows[0].wide else !RepeatsNewId(spec, table, rows)
  {
    if AnyWide(rows) {
      WideRowShows(spec, table, rows);
    } else if RepeatsNewId(spec, table, rows) {
      RepeatedIdShows(spec, table, rows);
    } else {
      NothingShows(spec, table, rows);
    }
  }

  lemma ResultsOfWideFile(spec: Spec, table: Table, rows: seq<Row>, size: nat, w: nat)
    requires size > 0 && FirstWide(rows, w)
    ensures |Ingest(spec, Start(table), rows, size).0.results| == InWholeBatches(w, size)
  {
    hide Ingest, FirstWide;
    WideRowCuts(spec, rows, Start(table), size, w);
    StartIsSound(table);
    IngestIsSound(spec, table, Start(table), rows, size);
  }

  lemma WideRowShows(spec: Spec, table: Table, rows: seq<Row>)
    requires AnyWide(rows)
    ensures SizesAgree(spec, table, rows) <==> rows[0].wide
  {
    hide Ingest, AnyWide;
    var w := FirstWideExists(rows);
    if w > 0 {
      ResultsOfWideFile(spec, table, rows, 1, w);
      ResultsOfWideFile(spec, table, rows, |rows|, w);
      SingleRowsAreBatches(w);
    } else {
      forall size: nat | size > 0 ensures Ingest(spec, Start(table), rows, size).0.results == [] {
        ResultsOfWideFile(spec, table, rows, size, 0);
      }
    }
  }

  lemma RepeatedIdShows(spec: Spec, table: Table, rows: seq<Row>)
    requires !AnyWide(rows) && RepeatsNewId(spec, table, rows)
    ensures !SizesAgree(spec, table, rows)
  {
    var p := File(spec, rows);
    var id :| id !in table && Repeated(p, id);
    var a, b :| 0 <= a < b < |p| && Has(p[a], id) && Has(p[b], id);
    var first := FirstExists(p, id, a);
    FirstSucceeds(spec, rows, Start(table), id, first);
    RepeatedFailTogether(spec, rows, table, first, id);
    assert Ingest(spec, Start(table), rows, |rows|).0.results != Ingest(spec, Start(table), rows, 1).0.results;
  }

  lemma NothingShows(spec: Spec, table: Table, rows: seq<Row>)
    requires !AnyWide(rows) && !RepeatsNewId(spec, table, rows)
    ensures SizesAgree(spec, table, rows)
  {
    var p := File(spec, rows);
    var whole := Numbered(1, Outcomes(p, table));
    assert AlongFile(p, table, Start(table));
    forall size: nat | size > 0 ensures Ingest(spec, Start(table), rows, size).0.results == whole {
      SameForEverySize(spec, rows, table, Start(table), size);
      assert whole[..|rows|] == whole;
    }
  }
}
