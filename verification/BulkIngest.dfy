/** The Bulk Ingest worker: CSV rows inserted batch by batch, each batch one transaction that also
    records the outcome of every row and the checkpoint a later run resumes from. */
module BulkIngest {
  import opened Wrappers

  datatype FieldType = Boolean | Integer | Floating | DateOnly | Timestamp | Text
  datatype Field = Field(name: string, kind: FieldType)
  datatype Value = Null | Flag(b: bool) | Literal(kind: FieldType, text: string)

  /** `parses` says whether a text is a literal of a type; `generatedId` is the id a row without one
      gets, a hash of job and row number. */
  datatype Spec = Spec(
    idField: string, fields: seq<Field>, parses: (FieldType, string) -> bool, generatedId: nat -> string)

  /** A CSV row by header; `wide` when it has more values than the header has names. */
  datatype Row = Row(cells: map<string, string>, wide: bool)

  datatype Prepared = Good(id: string, values: seq<Value>) | Bad(field: string)

  type Table = map<string, seq<Value>>

  datatype RowOutcome = Success(id: string, values: seq<Value>) | Duplicate(id: string) | Invalid(field: string)

  /* ---- Preparing a row ---- */

  function LowerChar(c: char): char {
    if 'A' <= c <= 'Z' then (c as int + 32) as char else c
  }

  function Lower(s: string): string {
    seq(|s|, i requires 0 <= i < |s| => LowerChar(s[i]))
  }

  function Cell(row: Row, name: string): string {
    if name in row.cells then row.cells[name] else ""
  }

  function Coerce(spec: Spec, f: Field, text: string): Option<Value> {
    if text == "" then Some(if f.name == "IsDeleted" then Flag(false) else Null)
    else
      match f.kind
      case Boolean =>
        if Lower(text) == "true" || Lower(text) == "1" then Some(Flag(true))
        else if Lower(text) == "false" || Lower(text) == "0" then Some(Flag(false))
        else None
      case Text => Some(Literal(Text, text))
      case _ => if spec.parses(f.kind, text) then Some(Literal(f.kind, text)) else None
  }

  function RecordId(spec: Spec, number: nat, row: Row): string {
    if Cell(row, spec.idField) == "" then spec.generatedId(number) else Cell(row, spec.idField)
  }

  function Values(spec: Spec, id: string, row: Row, fields: seq<Field>): (r: Prepared)
    ensures r.Good? ==> r.id == id && |r.values| == |fields|
  {
    if |fields| == 0 then Good(id, [])
    else
      var f := fields[0];
      var value := if f.name == spec.idField then Some(Literal(Text, id)) else Coerce(spec, f, Cell(row, f.name));
      match value
      case None => Bad(f.name)
      case Some(v) =>
        match Values(spec, id, row, fields[1..])
        case Bad(name) => Bad(name)
        case Good(_, rest) => Good(id, [v] + rest)
  }

  function PrepareRow(spec: Spec, number: nat, row: Row): Prepared {
    Values(spec, RecordId(spec, number, row), row, spec.fields)
  }

  /** The rows of a batch prepared, the first of them being row `number`. */
  function Prepare(spec: Spec, number: nat, batch: seq<Row>): (r: seq<Prepared>)
    ensures |r| == |batch|
    ensures forall i :: 0 <= i < |r| ==> r[i] == PrepareRow(spec, number + i, batch[i])
  {
    seq(|batch|, i requires 0 <= i < |batch| => PrepareRow(spec, number + i, batch[i]))
  }

  /* ---- The outcomes of a batch ---- */

  predicate Has(p: Prepared, id: string) { p.Good? && p.id == id }

  /** How many rows of a batch are valid and have this id. */
  function Occurrences(prepared: seq<Prepared>, id: string): nat {
    if |prepared| == 0 then 0
    else Occurrences(prepared[..|prepared| - 1], id) + if Has(prepared[|prepared| - 1], id) then 1 else 0
  }

  function OutcomeOf(p: Prepared, rejected: bool): RowOutcome {
    match p
    case Bad(field) => Invalid(field)
    case Good(id, values) => if rejected then Duplicate(id) else Success(id, values)
  }

  predicate Rejected(prepared: seq<Prepared>, table: Table, id: string) {
    Occurrences(prepared, id) >= 2 || id in table
  }

  /** A valid row is inserted unless its id is in the table or on another valid row of its batch. */
  function Outcomes(prepared: seq<Prepared>, table: Table): (r: seq<RowOutcome>)
    ensures |r| == |prepared|
    ensures forall i :: 0 <= i < |r| ==>
      r[i] == OutcomeOf(prepared[i], prepared[i].Good? && Rejected(prepared, table, prepared[i].id))
  {
    seq(|prepared|, i requires 0 <= i < |prepared| =>
      OutcomeOf(prepared[i], prepared[i].Good? && Rejected(prepared, table, prepared[i].id)))
  }

  lemma {:induction false} OccursWhereItIs(prepared: seq<Prepared>, i: nat, id: string)
    requires i < |prepared| && Has(prepared[i], id)
    ensures Occurrences(prepared, id) >= 1
  {
    if i < |prepared| - 1 { OccursWhereItIs(prepared[..|prepared| - 1], i, id); }
  }

  lemma {:induction false} OccursTwice(prepared: seq<Prepared>, i: nat, j: nat, id: string)
    requires i < j < |prepared| && Has(prepared[i], id) && Has(prepared[j], id)
    ensures Occurrences(prepared, id) >= 2
  {
    var rest := prepared[..|prepared| - 1];
    if j < |rest| { OccursTwice(rest, i, j, id); } else { OccursWhereItIs(rest, i, id); }
  }

  lemma {:induction false} OccursSomewhere(prepared: seq<Prepared>, id: string) returns (i: nat)
    requires Occurrences(prepared, id) >= 1
    ensures i < |prepared| && Has(prepared[i], id)
  {
    if Has(prepared[|prepared| - 1], id) { i := |prepared| - 1; }
    else { i := OccursSomewhere(prepared[..|prepared| - 1], id); }
  }

  lemma {:induction false} TwiceIsTwoRows(prepared: seq<Prepared>, id: string) returns (i: nat, j: nat)
    requires Occurrences(prepared, id) >= 2
    ensures i < j < |prepared| && Has(prepared[i], id) && Has(prepared[j], id)
  {
    var rest := prepared[..|prepared| - 1];
    if Has(prepared[|prepared| - 1], id) {
      i := OccursSomewhere(rest, id);
      j := |prepared| - 1;
    } else {
      i, j := TwiceIsTwoRows(rest, id);
    }
  }

  /** Which rows fail as duplicates: exactly the valid ones whose id is in the table or on another
      valid row of the batch; every member of an in-batch group fails, the first included. */
  lemma DuplicatesExactly(prepared: seq<Prepared>, table: Table, i: nat)
    requires i < |prepared| && prepared[i].Good?
    ensures Outcomes(prepared, table)[i].Success? <==>
              prepared[i].id !in table
              && forall j :: 0 <= j < |prepared| && j != i ==> !Has(prepared[j], prepared[i].id)
  {
    var id := prepared[i].id;
    forall j | 0 <= j < |prepared| && j != i && Has(prepared[j], id) ensures Occurrences(prepared, id) >= 2 {
      if i < j { OccursTwice(prepared, i, j, id); } else { OccursTwice(prepared, j, i, id); }
    }
    if Occurrences(prepared, id) >= 2 {
      var a, b := TwiceIsTwoRows(prepared, id);
      assert a != i || b != i;
    }
  }

  /* ---- Committing a batch ---- */

  datatype RowResult = RowResult(number: nat, outcome: RowOutcome)

  /** The table, the job's row results and its latest checkpoint. */
  datatype Durable = Durable(table: Table, results: seq<RowResult>, processed: nat, failed: nat, csvRow: nat)

  function Start(table: Table): Durable {
    Durable(table, [], 0, 0, 0)
  }

  function Insert(table: Table, outcomes: seq<RowOutcome>): Table {
    if |outcomes| == 0 then table
    else
      var last := outcomes[|outcomes| - 1];
      var before := Insert(table, outcomes[..|outcomes| - 1]);
      if last.Success? then before[last.id := last.values] else before
  }

  function Successes(outcomes: seq<RowOutcome>): (n: nat)
    ensures n <= |outcomes|
  {
    if |outcomes| == 0 then 0
    else Successes(outcomes[..|outcomes| - 1]) + if outcomes[|outcomes| - 1].Success? then 1 else 0
  }

  function Numbered(number: nat, outcomes: seq<RowOutcome>): (r: seq<RowResult>)
    ensures |r| == |outcomes|
    ensures forall i :: 0 <= i < |r| ==> r[i] == RowResult(number + i, outcomes[i])
  {
    seq(|outcomes|, i requires 0 <= i < |outcomes| => RowResult(number + i, outcomes[i]))
  }

  function ApplyBatch(spec: Spec, s: Durable, batch: seq<Row>): Durable {
    var outcomes := Outcomes(Prepare(spec, s.csvRow + 1, batch), s.table);
    Durable(
      Insert(s.table, outcomes), s.results + Numbered(s.csvRow + 1, outcomes),
      s.processed + Successes(outcomes), s.failed + |outcomes| - Successes(outcomes), s.csvRow + |outcomes|)
  }

  /** The ids a batch inserts are new to the table and differ from each other. */
  ghost predicate Fresh(table: Table, outcomes: seq<RowOutcome>) {
    && (forall i :: 0 <= i < |outcomes| && outcomes[i].Success? ==> outcomes[i].id !in table)
    && (forall i, j :: 0 <= i < j < |outcomes| && outcomes[i].Success? && outcomes[j].Success? ==>
          outcomes[i].id != outcomes[j].id)
  }

  lemma InsertsAreFresh(prepared: seq<Prepared>, table: Table)
    ensures Fresh(table, Outcomes(prepared, table))
  {
    var o := Outcomes(prepared, table);
    forall i, j | 0 <= i < j < |o| && o[i].Success? && o[j].Success? ensures o[i].id != o[j].id {
      if Has(prepared[j], prepared[i].id) { OccursTwice(prepared, i, j, prepared[i].id); }
    }
  }

  ghost predicate Adds(outcomes: seq<RowOutcome>, id: string) {
    exists i :: 0 <= i < |outcomes| && outcomes[i].Success? && outcomes[i].id == id
  }

  lemma AddsOneMore(outcomes: seq<RowOutcome>, id: string)
    requires |outcomes| > 0
    ensures var last := outcomes[|outcomes| - 1];
      Adds(outcomes, id) <==> Adds(outcomes[..|outcomes| - 1], id) || (last.Success? && last.id == id)
  {
    var rest := outcomes[..|outcomes| - 1];
    if Adds(rest, id) {
      var i :| 0 <= i < |rest| && rest[i].Success? && rest[i].id == id;
      assert outcomes[i] == rest[i];
    }
    if Adds(outcomes, id) {
      var i :| 0 <= i < |outcomes| && outcomes[i].Success? && outcomes[i].id == id;
      assert i < |rest| ==> rest[i] == outcomes[i];
    }
  }

  lemma {:induction false} InsertedIds(table: Table, outcomes: seq<RowOutcome>, id: string)
    ensures id in Insert(table, outcomes) <==> id in table || Adds(outcomes, id)
  {
    if |outcomes| > 0 {
      InsertedIds(table, outcomes[..|outcomes| - 1], id);
      AddsOneMore(outcomes, id);
    }
  }

  lemma {:induction false} InsertedRows(table: Table, outcomes: seq<RowOutcome>)
    requires Fresh(table, outcomes)
    ensures forall id :: id in table ==> id in Insert(table, outcomes) && Insert(table, outcomes)[id] == table[id]
    ensures forall i :: 0 <= i < |outcomes| && outcomes[i].Success? ==>
      outcomes[i].id in Insert(table, outcomes) && Insert(table, outcomes)[outcomes[i].id] == outcomes[i].values
  {
    if |outcomes| > 0 {
      InsertedRows(table, outcomes[..|outcomes| - 1]);
    }
  }

  lemma {:induction false} InsertGrowsBySuccesses(table: Table, outcomes: seq<RowOutcome>)
    requires Fresh(table, outcomes)
    ensures |Insert(table, outcomes)| == |table| + Successes(outcomes)
  {
    if |outcomes| > 0 {
      var rest, last := outcomes[..|outcomes| - 1], outcomes[|outcomes| - 1];
      InsertGrowsBySuccesses(table, rest);
      if last.Success? {
        InsertedIds(table, rest, last.id);
        forall i | 0 <= i < |rest| && rest[i].Success? ensures rest[i].id != last.id {
          assert rest[i] == outcomes[i];
        }
        assert Insert(table, outcomes).Keys == Insert(table, rest).Keys + {last.id};
      }
    }
  }

  /* ---- What every checkpoint keeps ---- */

  ghost predicate RowInserted(before: Table, s: Durable, o: RowOutcome)
    requires o.Success?
  {
    o.id !in before && o.id in s.table && s.table[o.id] == o.values
  }

  ghost predicate InsertedBy(s: Durable, id: string, n: nat) {
    n < |s.results| && s.results[n].outcome.Success? && s.results[n].outcome.id == id
  }

  ghost predicate AtMostOnce(s: Durable, id: string) {
    forall m, n :: InsertedBy(s, id, m) && InsertedBy(s, id, n) ==> m == n
  }

  /** Rows 1 to the checkpoint have one outcome each; the counts add up to the row number; the table
      is the one before the job and, for each success, that row, inserted once. */
  ghost predicate Sound(before: Table, s: Durable) {
    && |s.results| == s.csvRow && (forall i :: 0 <= i < |s.results| ==> s.results[i].number == i + 1)
    && s.processed + s.failed == s.csvRow && |s.table| == |before| + s.processed
    && (forall id :: id in before ==> id in s.table && s.table[id] == before[id])
    && (forall n :: 0 <= n < |s.results| && s.results[n].outcome.Success? ==>
        RowInserted(before, s, s.results[n].outcome))
    && (forall id :: id in s.table && id !in before ==> exists n :: InsertedBy(s, id, n))
    && (forall id :: AtMostOnce(s, id))
  }

  lemma StartIsSound(table: Table)
    ensures Sound(table, Start(table))
  {
  }

  lemma BatchRows(spec: Spec, before: Table, s: Durable, batch: seq<Row>)
    requires Sound(before, s)
    ensures var s' := ApplyBatch(spec, s, batch);
      && |s'.results| == s'.csvRow && (forall i :: 0 <= i < |s'.results| ==> s'.results[i].number == i + 1)
      && s'.processed + s'.failed == s'.csvRow && |s'.table| == |before| + s'.processed
      && (forall id :: id in before ==> id in s'.table && s'.table[id] == before[id])
      && (forall n :: 0 <= n < |s'.results| && s'.results[n].outcome.Success? ==>
          RowInserted(before, s', s'.results[n].outcome))
  {
    var prepared := Prepare(spec, s.csvRow + 1, batch);
    var outcomes := Outcomes(prepared, s.table);
    InsertsAreFresh(prepared, s.table);
    hide Prepare, Outcomes, Insert, Fresh, Numbered, Sound, RowInserted;
    RowsAreNumbered(before, s, outcomes);
    InsertGrowsBySuccesses(s.table, outcomes);
    SuccessesAreInserted(before, s, outcomes, ApplyBatch(spec, s, batch));
  }

  lemma RowsAreNumbered(before: Table, s: Durable, outcomes: seq<RowOutcome>)
    requires Sound(before, s)
    ensures var results := s.results + Numbered(s.csvRow + 1, outcomes);
      |results| == s.csvRow + |outcomes| && forall i :: 0 <= i < |results| ==> results[i].number == i + 1
    ensures s.processed + s.failed == s.csvRow && |s.table| == |before| + s.processed
  {
  }

  lemma SuccessesAreInserted(before: Table, s: Durable, outcomes: seq<RowOutcome>, s': Durable)
    requires Sound(before, s) && Fresh(s.table, outcomes)
    requires s'.results == s.results + Numbered(s.csvRow + 1, outcomes) && s'.table == Insert(s.table, outcomes)
    ensures forall id :: id in before ==> id in s'.table && s'.table[id] == before[id]
    ensures forall n :: 0 <= n < |s'.results| && s'.results[n].outcome.Success? ==>
      RowInserted(before, s', s'.results[n].outcome)
  {
    hide Insert, AtMostOnce;
    InsertedRows(s.table, outcomes);
  }

  lemma NewIdsSucceeded(before: Table, s: Durable, outcomes: seq<RowOutcome>, s': Durable, id: string)
    requires Sound(before, s)
    requires s'.results == s.results + Numbered(s.csvRow + 1, outcomes) && s'.table == Insert(s.table, outcomes)
    requires id in s'.table && id !in before
    ensures exists n :: InsertedBy(s', id, n)
  {
    InsertedIds(s.table, outcomes, id);
    hide Insert;
    if id in s.table {
      var n :| InsertedBy(s, id, n);
      assert InsertedBy(s', id, n);
    } else {
      var i :| 0 <= i < |outcomes| && outcomes[i].Success? && outcomes[i].id == id;
      assert InsertedBy(s', id, s.csvRow + i);
    }
  }

  lemma StillAtMostOnce(before: Table, s: Durable, outcomes: seq<RowOutcome>, s': Durable, id: string)
    requires Sound(before, s) && Fresh(s.table, outcomes)
    requires s'.results == s.results + Numbered(s.csvRow + 1, outcomes)
    ensures AtMostOnce(s', id)
  {
    assert AtMostOnce(s, id);
    hide Sound;
    forall m, n | InsertedBy(s', id, m) && InsertedBy(s', id, n) ensures m == n {
      OldOrNew(before, s, outcomes, s', id, m);
      OldOrNew(before, s, outcomes, s', id, n);
    }
  }

  lemma BatchIds(spec: Spec, before: Table, s: Durable, batch: seq<Row>, id: string)
    requires Sound(before, s)
    ensures var s' := ApplyBatch(spec, s, batch);
      && (id in s'.table && id !in before ==> exists n :: InsertedBy(s', id, n))
      && AtMostOnce(s', id)
  {
    var prepared := Prepare(spec, s.csvRow + 1, batch);
    var outcomes := Outcomes(prepared, s.table);
    var s' := ApplyBatch(spec, s, batch);
    InsertsAreFresh(prepared, s.table);
    hide Sound, Fresh, Outcomes, Prepare, Insert, InsertedBy, AtMostOnce;
    StillAtMostOnce(before, s, outcomes, s', id);
    if id in s'.table && id !in before { NewIdsSucceeded(before, s, outcomes, s', id); }
  }

  lemma OldOrNew(before: Table, s: Durable, outcomes: seq<RowOutcome>, s': Durable, id: string, n: nat)
    requires Sound(before, s) && Fresh(s.table, outcomes)
    requires s'.results == s.results + Numbered(s.csvRow + 1, outcomes) && InsertedBy(s', id, n)
    ensures if n < s.csvRow then InsertedBy(s, id, n) && id in s.table
            else
              && n - s.csvRow < |outcomes| && outcomes[n - s.csvRow].Success?
              && outcomes[n - s.csvRow].id == id && id !in s.table
  {
    if n < s.csvRow { assert RowInserted(before, s, s.results[n].outcome); }
  }

  /** Every batch keeps it so. */
  lemma BatchKeepsSound(spec: Spec, before: Table, s: Durable, batch: seq<Row>)
    requires Sound(before, s)
    ensures Sound(before, ApplyBatch(spec, s, batch))
  {
    hide ApplyBatch, RowInserted, InsertedBy, AtMostOnce;
    BatchRows(spec, before, s, batch);
    forall id
      ensures id in ApplyBatch(spec, s, batch).table && id !in before ==>
        exists n :: InsertedBy(ApplyBatch(spec, s, batch), id, n)
      ensures AtMostOnce(ApplyBatch(spec, s, batch), id)
    {
      BatchIds(spec, before, s, batch, id);
    }
  }
}
