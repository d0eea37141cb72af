/** The Bulk Ingest worker as it runs, interrupted and resumed.

    A batch commits in one transaction, so a crash loses at most rows that were only read.  With one
    batch size, resuming lands on the batch boundaries of the uninterrupted run and ends in its
    state; with another size it need not, and `BatchSizeMattersExactly` says when. */
module BulkIngestRun {
  import opened BulkIngest

  datatype Outcome =
    | Finished(processed: nat, failed: nat)
    | Crashed
    | InvalidHeader
    | TooWide(row: nat)
    | UniqueViolation

  predicate ValidHeader(spec: Spec, header: seq<string>) {
    && |header| > 0
    && forall i :: 0 <= i < |header| ==>
         header[i] != "" && exists j :: 0 <= j < |spec.fields| && spec.fields[j].name == header[i]
  }

  predicate IsUnknown(spec: Spec, name: string) {
    name == "" || forall j :: 0 <= j < |spec.fields| ==> spec.fields[j].name != name
  }

  lemma HeaderIsValid(spec: Spec, header: seq<string>)
    ensures !ValidHeader(spec, header) <==>
      |header| == 0 || exists i :: 0 <= i < |header| && IsUnknown(spec, header[i])
  {
    if |header| > 0 && !ValidHeader(spec, header) {
      var i :| 0 <= i < |header|
          && !(header[i] != "" && exists j :: 0 <= j < |spec.fields| && spec.fields[j].name == header[i]);
      assert IsUnknown(spec, header[i]);
    }
  }

  function Chunk(rows: seq<Row>, from: nat, size: nat): (c: seq<Row>)
    requires from < |rows| && size > 0
    ensures 0 < |c| && |c| <= size
  {
    if from + size <= |rows| then rows[from..from + size] else rows[from..]
  }

  predicate AnyWide(rows: seq<Row>) {
    exists i :: 0 <= i < |rows| && rows[i].wide
  }

  /** The uninterrupted run from `s` on, and whether it stops at a row that is too wide. */
  function Ingest(spec: Spec, s: Durable, rows: seq<Row>, size: nat): (Durable, bool)
    requires size > 0
    decreases |rows| - s.csvRow
  {
    if s.csvRow >= |rows| then (s, false)
    else
      var batch := Chunk(rows, s.csvRow, size);
      if AnyWide(batch) then (s, true)
      else Ingest(spec, ApplyBatch(spec, s, batch), rows, size)
  }

  lemma {:induction false} IngestIsSound(spec: Spec, before: Table, s: Durable, rows: seq<Row>, size: nat)
    requires Sound(before, s) && size > 0
    ensures Sound(before, Ingest(spec, s, rows, size).0)
    ensures !Ingest(spec, s, rows, size).1 && s.csvRow <= |rows| ==> Ingest(spec, s, rows, size).0.csvRow == |rows|
    decreases |rows| - s.csvRow
  {
    hide Sound;
    if s.csvRow < |rows| {
      var batch := Chunk(rows, s.csvRow, size);
      if !AnyWide(batch) {
        BatchKeepsSound(spec, before, s, batch);
        IngestIsSound(spec, before, ApplyBatch(spec, s, batch), rows, size);
      }
    }
  }

  /* ---- One batch as it runs ---- */

  lemma OccurrencesNext(prepared: seq<Prepared>, i: nat, id: string)
    requires i < |prepared|
    ensures Occurrences(prepared[..i + 1], id) == Occurrences(prepared[..i], id) + if Has(prepared[i], id) then 1 else 0
  {
    assert prepared[..i + 1][..i] == prepared[..i];
  }

  /** One pass finds the ids that occur twice. */
  method DuplicateIds(prepared: seq<Prepared>) returns (duplicates: set<string>)
    ensures forall id :: id in duplicates <==> Occurrences(prepared, id) >= 2
  {
    duplicates := {};
    var seen: set<string> := {};
    for i := 0 to |prepared|
      invariant forall id :: id in seen <==> Occurrences(prepared[..i], id) >= 1
      invariant forall id :: id in duplicates <==> Occurrences(prepared[..i], id) >= 2
    {
      forall id ensures Occurrences(prepared[..i + 1], id) == Occurrences(prepared[..i], id)
          + if Has(prepared[i], id) then 1 else 0 {
        OccurrencesNext(prepared, i, id);
      }
      if prepared[i].Good? {
        if prepared[i].id in seen { duplicates := duplicates + {prepared[i].id}; }
        seen := seen + {prepared[i].id};
      }
    }
    assert prepared[..|prepared|] == prepared;
  }

  method Judge(prepared: seq<Prepared>, table: Table) returns (outcomes: seq<RowOutcome>)
    ensures outcomes == Outcomes(prepared, table)
  {
    var duplicates := DuplicateIds(prepared);
    outcomes := [];
    hide Occurrences;
    for i := 0 to |prepared|
      invariant |outcomes| == i
      invariant forall k :: 0 <= k < i ==> outcomes[k] == Outcomes(prepared, table)[k]
    {
      var rejected := prepared[i].Good? && (prepared[i].id in duplicates || prepared[i].id in table);
      outcomes := outcomes + [OutcomeOf(prepared[i], rejected)];
    }
  }

  /** What committing `outcomes` makes of the durable state. */
  function Committed(s: Durable, outcomes: seq<RowOutcome>): Durable {
    Durable(
      Insert(s.table, outcomes), s.results + Numbered(s.csvRow + 1, outcomes),
      s.processed + Successes(outcomes), s.failed + |outcomes| - Successes(outcomes), s.csvRow + |outcomes|)
  }

  lemma NextIsFresh(table: Table, outcomes: seq<RowOutcome>, i: nat)
    requires Fresh(table, outcomes) && i < |outcomes| && outcomes[i].Success?
    ensures outcomes[i].id !in Insert(table, outcomes[..i])
  {
    InsertedIds(table, outcomes[..i], outcomes[i].id);
  }

  lemma OneMoreOutcome(table: Table, outcomes: seq<RowOutcome>, i: nat)
    requires i < |outcomes|
    ensures var o := outcomes[i];
      && Insert(table, outcomes[..i + 1])
          == (if o.Success? then Insert(table, outcomes[..i])[o.id := o.values] else Insert(table, outcomes[..i]))
      && Successes(outcomes[..i + 1]) == Successes(outcomes[..i]) + if o.Success? then 1 else 0
  {
    assert outcomes[..i + 1][..i] == outcomes[..i];
  }

  /** The transaction; the unique index on the id would reject a repeated one. */
  method CommitBatch(s: Durable, outcomes: seq<RowOutcome>) returns (after: Durable, violated: bool)
    requires Fresh(s.table, outcomes)
    ensures !violated && after == Committed(s, outcomes)
  {
    hide Fresh, Insert, Successes;
    var table, results, succeeded := s.table, s.results, 0;
    assert Insert(s.table, outcomes[..0]) == s.table && Successes(outcomes[..0]) == 0 by {
      NothingInserted(s.table, outcomes);
    }
    for i := 0 to |outcomes|
      invariant table == Insert(s.table, outcomes[..i]) && succeeded == Successes(outcomes[..i]) && succeeded <= i
      invariant results == s.results + Numbered(s.csvRow + 1, outcomes)[..i]
    {
      OneMoreOutcome(s.table, outcomes, i);
      if outcomes[i].Success? {
        NextIsFresh(s.table, outcomes, i);
        if outcomes[i].id in table { return s, true; }
        table := table[outcomes[i].id := outcomes[i].values];
        succeeded := succeeded + 1;
      }
      results := results + [RowResult(s.csvRow + 1 + i, outcomes[i])];
    }
    assert outcomes[..|outcomes|] == outcomes;
    after := Durable(table, results, s.processed + succeeded, s.failed + |outcomes| - succeeded, s.csvRow + |outcomes|);
    violated := false;
  }

  lemma NothingInserted(table: Table, outcomes: seq<RowOutcome>)
    ensures Insert(table, outcomes[..0]) == table && Successes(outcomes[..0]) == 0
  {
  }

  lemma CommittedIsApplied(spec: Spec, s: Durable, batch: seq<Row>)
    ensures var outcomes := Outcomes(Prepare(spec, s.csvRow + 1, batch), s.table);
      Fresh(s.table, outcomes) && Committed(s, outcomes) == ApplyBatch(spec, s, batch)
  {
    InsertsAreFresh(Prepare(spec, s.csvRow + 1, batch), s.table);
    hide Outcomes, Prepare, Insert, Fresh;
  }

  class BulkIngestJob {
    const spec: Spec
    var state: Durable
    ghost const before: Table

    ghost predicate Valid()
      reads this
    {
      Sound(before, state)
    }

    constructor (spec: Spec, table: Table)
      ensures Valid() && this.spec == spec && before == table && state == Start(table)
    {
      this.spec, state, before := spec, Start(table), table;
      StartIsSound(table);
    }

    /** Prepare the rows, fail the duplicates, and commit the batch in one transaction. */
    method Commit(batch: seq<Row>) returns (violated: bool)
      requires Valid()
      modifies this
      ensures Valid() && !violated && state == ApplyBatch(spec, old(state), batch)
    {
      hide Sound, Fresh, Outcomes, Prepare, ApplyBatch, Committed;
      BatchKeepsSound(spec, before, state, batch);
      CommittedIsApplied(spec, state, batch);
      var outcomes := Judge(Prepare(spec, state.csvRow + 1, batch), state.table);
      var after: Durable;
      after, violated := CommitBatch(state, outcomes);
      state := after;
    }

    /** One run over the uploaded rows; `budget` batches commit before the process dies. */
    method Stream(header: seq<string>, rows: seq<Row>, size: nat, budget: nat) returns (outcome: Outcome)
      requires Valid() && size > 0
      modifies this
      ensures Valid() && !outcome.UniqueViolation?
      ensures outcome.InvalidHeader? <==> !ValidHeader(spec, header)
      ensures outcome.InvalidHeader? <==> |header| == 0 || exists i :: 0 <= i < |header| && IsUnknown(spec, header[i])
      ensures outcome.InvalidHeader? ==> state == old(state)
      ensures Ingest(spec, state, rows, size) == Ingest(spec, old(state), rows, size)
      ensures outcome.Finished? ==>
        (state, false) == Ingest(spec, old(state), rows, size) && outcome == Finished(state.processed, state.failed)
      ensures outcome.TooWide? ==>
        && (state, true) == Ingest(spec, old(state), rows, size)
        && state.csvRow < outcome.row <= |rows| && rows[outcome.row - 1].wide
      ensures outcome.Crashed? ==> budget < |rows|
    {
      HeaderIsValid(spec, header);
      hide ApplyBatch, Sound, Ingest, Chunk, ValidHeader, Pending;
      if !ValidHeader(spec, header) { return InvalidHeader; }
      var resume, left := state.csvRow, budget;
      ghost var fate := Ingest(spec, state, rows, size);
      var batch: seq<Row> := [];
      NothingPending(0, rows, size);
      for i := 0 to |rows|
        invariant Valid() && Ingest(spec, state, rows, size) == fate
        invariant state.csvRow >= resume && (i < resume ==> state.csvRow == resume)
        invariant if i < resume then batch == [] else Pending(state.csvRow, rows, i, batch, size)
        invariant 0 <= left <= budget && budget - left <= state.csvRow - resume
      {
        NothingPending(i + 1, rows, size);
        if i < resume { continue; }
        if rows[i].wide {
          PendingFacts(state.csvRow, rows, i, batch, size);
          WideRowStops(spec, state, rows, size, i);
          return TooWide(i + 1);
        }
        PendingGrows(state.csvRow, rows, i, batch, size);
        batch := batch + [rows[i]];
        if |batch| >= size {
          if left == 0 { return Crashed; }
          var violated := CommitChunk(batch, rows, i + 1, size);
          if violated { return UniqueViolation; }
          left, batch := left - 1, [];
        }
      }
      if |rows| >= resume { PendingFacts(state.csvRow, rows, |rows|, batch, size); }
      if |batch| > 0 {
        if left == 0 { return Crashed; }
        var violated := CommitChunk(batch, rows, |rows|, size);
        if violated { return UniqueViolation; }
      }
      NothingLeft(spec, state, rows, size);
      outcome := Finished(state.processed, state.failed);
    }

    method CommitChunk(batch: seq<Row>, ghost rows: seq<Row>, ghost i: nat, ghost size: nat) returns (violated: bool)
      requires Valid() && size > 0 && state.csvRow < i <= |rows|
      requires batch == rows[state.csvRow..i] && |batch| <= size && (|batch| == size || i == |rows|)
      requires forall k :: 0 <= k < |batch| ==> !batch[k].wide
      modifies this
      ensures Valid() && !violated && state.csvRow == i
      ensures Ingest(spec, state, rows, size) == Ingest(spec, old(state), rows, size)
    {
      hide ApplyBatch, Sound, Ingest;
      FullChunk(state.csvRow, rows, i, batch, size);
      ChunkCommits(spec, state, rows, size, batch);
      violated := Commit(batch);
    }
  }

  /** The rows read since the last commit. */
  ghost predicate Pending(from: nat, rows: seq<Row>, i: nat, batch: seq<Row>, size: nat)
    requires i <= |rows|
  {
    && from <= i && batch == rows[from..i] && |batch| < size
    && forall k :: 0 <= k < |batch| ==> !batch[k].wide
  }

  lemma NothingPending(i: nat, rows: seq<Row>, size: nat)
    requires i <= |rows| && size > 0
    ensures Pending(i, rows, i, [], size)
  {
  }

  lemma PendingFacts(from: nat, rows: seq<Row>, i: nat, batch: seq<Row>, size: nat)
    requires i <= |rows| && Pending(from, rows, i, batch, size)
    ensures from <= i < from + size && batch == rows[from..i] && |batch| == i - from
    ensures forall k :: 0 <= k < |batch| ==> !batch[k].wide
  {
  }

  lemma PendingGrows(from: nat, rows: seq<Row>, i: nat, batch: seq<Row>, size: nat)
    requires i < |rows| && Pending(from, rows, i, batch, size) && !rows[i].wide
    ensures from <= i && batch + [rows[i]] == rows[from..i + 1] && |batch| == i - from
    ensures |batch| + 1 <= size && (|batch| + 1 < size ==> Pending(from, rows, i + 1, batch + [rows[i]], size))
    ensures forall k :: 0 <= k < |batch + [rows[i]]| ==> !(batch + [rows[i]])[k].wide
  {
  }

  lemma FullChunk(from: nat, rows: seq<Row>, i: nat, batch: seq<Row>, size: nat)
    requires size > 0 && from < i <= |rows| && batch == rows[from..i] && |batch| <= size
    requires |batch| == size || i == |rows|
    ensures batch == Chunk(rows, from, size)
  {
  }

  lemma WideRowStops(spec: Spec, s: Durable, rows: seq<Row>, size: nat, i: nat)
    requires size > 0 && s.csvRow <= i < |rows| && i < s.csvRow + size && rows[i].wide
    ensures Ingest(spec, s, rows, size) == (s, true)
  {
    assert Chunk(rows, s.csvRow, size)[i - s.csvRow] == rows[i];
  }

  lemma ChunkCommits(spec: Spec, s: Durable, rows: seq<Row>, size: nat, batch: seq<Row>)
    requires size > 0 && s.csvRow < |rows| && batch == Chunk(rows, s.csvRow, size)
    requires forall k :: 0 <= k < |batch| ==> !batch[k].wide
    ensures Ingest(spec, s, rows, size) == Ingest(spec, ApplyBatch(spec, s, batch), rows, size)
    ensures ApplyBatch(spec, s, batch).csvRow == s.csvRow + |batch|
  {
  }

  lemma NothingLeft(spec: Spec, s: Durable, rows: seq<Row>, size: nat)
    requires size > 0 && s.csvRow >= |rows|
    ensures Ingest(spec, s, rows, size) == (s, false)
  {
  }

  /** Interrupted after each of `crashes` and then left alone, a job ends as if never interrupted. */
  method RunWithCrashes(job: BulkIngestJob, header: seq<string>, rows: seq<Row>, size: nat, crashes: seq<nat>)
      returns (outcome: Outcome)
    requires job.Valid() && size > 0 && ValidHeader(job.spec, header)
    modifies job
    ensures job.Valid() && (outcome.Finished? || outcome.TooWide?)
    ensures (job.state, outcome.TooWide?) == Ingest(job.spec, old(job.state), rows, size)
  {
    for i := 0 to |crashes|
      invariant job.Valid() && Ingest(job.spec, job.state, rows, size) == Ingest(job.spec, old(job.state), rows, size)
    {
      outcome := job.Stream(header, rows, size, crashes[i]);
    }
    outcome := job.Stream(header, rows, size, |rows|);
  }
}
