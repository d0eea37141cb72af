/** What an ingested row is in terms of the CSV's cells: under which id it stands, what each value is,
    and which rows cannot be read; and that a table written out as CSV is read back. */
module BulkIngestCells {
  import opened Wrappers
  import opened Ordering
  import opened BulkIngest
  import opened BulkIngestRun
  import opened BulkIngestBatching

  /* ---- One cell ---- */

  /** `text` is `word`, which is in small letters, in letters of any case. */
  predicate Spells(text: string, word: string) {
    |text| == |word| && forall i :: 0 <= i < |text| ==>
      text[i] == word[i] || ('a' <= word[i] <= 'z' && text[i] as int == word[i] as int - 32)
  }

  predicate SaysTrue(text: string) { text == "1" || Spells(text, "true") }
  predicate SaysFalse(text: string) { text == "0" || Spells(text, "false") }

  /** The value a cell of a field says: an empty one none, or not deleted. */
  predicate Says(spec: Spec, f: Field, text: string, v: Value) {
    if text == "" then v == if f.name == "IsDeleted" then Flag(false) else Null
    else if f.kind.Boolean? then v.Flag? && if v.b then SaysTrue(text) else SaysFalse(text)
    else v == Literal(f.kind, text) && (f.kind.Text? || spec.parses(f.kind, text))
  }

  predicate Readable(spec: Spec, f: Field, text: string) {
    text == "" || (if f.kind.Boolean? then SaysTrue(text) || SaysFalse(text)
                   else f.kind.Text? || spec.parses(f.kind, text))
  }

  lemma LowerSpells(text: string, word: string)
    requires forall i :: 0 <= i < |word| ==> 'a' <= word[i] <= 'z'
    ensures Lower(text) == word <==> Spells(text, word)
  {
    if Lower(text) == word {
      assert |Lower(text)| == |text|;
      forall i | 0 <= i < |text| ensures text[i] == word[i] || text[i] as int == word[i] as int - 32 {
        assert Lower(text)[i] == LowerChar(text[i]);
      }
    }
  }

  lemma LowerDigit(text: string, digit: char)
    requires '0' <= digit <= '9'
    ensures Lower(text) == [digit] <==> text == [digit]
  {
    if Lower(text) == [digit] { assert |Lower(text)| == |text| && Lower(text)[0] == LowerChar(text[0]); }
    if text == [digit] { assert Lower(text)[0] == digit; }
  }

  lemma CoerceSays(spec: Spec, f: Field, text: string)
    ensures Coerce(spec, f, text).Some? <==> Readable(spec, f, text)
    ensures forall v :: Coerce(spec, f, text) == Some(v) <==> Says(spec, f, text, v)
  {
    LowerSpells(text, "true");
    LowerSpells(text, "false");
    LowerDigit(text, '1');
    LowerDigit(text, '0');
    hide Lower, Spells;
  }

  /* ---- One row ---- */

  /** The id a row stands under: the one it names, else the one its number gives it. */
  predicate IsIdOf(spec: Spec, number: nat, row: Row, id: string) {
    if spec.idField in row.cells && row.cells[spec.idField] != "" then id == row.cells[spec.idField]
    else id == spec.generatedId(number)
  }

  predicate SaysAll(spec: Spec, row: Row, id: string, values: seq<Value>) {
    && |values| == |spec.fields|
    && forall i :: 0 <= i < |values| ==> SaysAt(spec, row, id, spec.fields[i], values[i])
  }

  predicate SaysAt(spec: Spec, row: Row, id: string, f: Field, v: Value) {
    if f.name == spec.idField then v == Literal(Text, id) else Says(spec, f, Cell(row, f.name), v)
  }

  predicate Unreadable(spec: Spec, row: Row, f: Field) {
    f.name != spec.idField && !Readable(spec, f, Cell(row, f.name))
  }

  predicate HasUnreadable(spec: Spec, row: Row, name: string) {
    exists i :: 0 <= i < |spec.fields| && spec.fields[i].name == name && Unreadable(spec, row, spec.fields[i])
      && forall j :: 0 <= j < i ==> !Unreadable(spec, row, spec.fields[j])
  }

  /** What the row comes to, said from its cells. */
  predicate IsReadAs(spec: Spec, number: nat, row: Row, p: Prepared) {
    match p
    case Good(id, values) => IsIdOf(spec, number, row, id) && SaysAll(spec, row, id, values)
    case Bad(name) => HasUnreadable(spec, row, name)
  }

  lemma {:induction false} ValuesSay(spec: Spec, id: string, row: Row, fields: seq<Field>)
    ensures match Values(spec, id, row, fields)
      case Good(x, values) =>
        x == id && |values| == |fields| && forall i :: 0 <= i < |values| ==> SaysAt(spec, row, id, fields[i], values[i])
      case Bad(name) =>
        exists i :: 0 <= i < |fields| && fields[i].name == name && Unreadable(spec, row, fields[i])
          && forall j :: 0 <= j < i ==> !Unreadable(spec, row, fields[j])
  {
    if |fields| > 0 {
      var f, rest := fields[0], fields[1..];
      ValuesSay(spec, id, row, rest);
      CoerceSays(spec, f, Cell(row, f.name));
      hide Coerce, Says, Readable, Cell;
      match Values(spec, id, row, fields)
      case Good(_, values) =>
        assert values == [values[0]] + values[1..];
        forall i | 0 < i < |values| ensures SaysAt(spec, row, id, fields[i], values[i]) {
          assert SaysAt(spec, row, id, rest[i - 1], values[1..][i - 1]);
        }
      case Bad(name) =>
        if !Unreadable(spec, row, f) {
          var i :| 0 <= i < |rest| && rest[i].name == name && Unreadable(spec, row, rest[i])
              && forall j :: 0 <= j < i ==> !Unreadable(spec, row, rest[j]);
          assert fields[i + 1] == rest[i];
        }
    }
  }

  lemma RowIsReadAs(spec: Spec, number: nat, row: Row)
    ensures IsReadAs(spec, number, row, PrepareRow(spec, number, row))
  {
    ValuesSay(spec, RecordId(spec, number, row), row, spec.fields);
    hide Values, SaysAt, Unreadable;
  }

  /* ---- A whole run ---- */

  /** Row by row, the recorded outcome is of what the cells say. */
  ghost predicate OutcomesSay(spec: Spec, rows: seq<Row>, s: Durable) {
    && |s.results| == s.csvRow <= |rows|
    && forall n :: 0 <= n < |s.results| ==> OutcomeSays(spec, n + 1, rows[n], s.results[n].outcome)
  }

  ghost predicate OutcomeSays(spec: Spec, number: nat, row: Row, o: RowOutcome) {
    match o
    case Success(id, values) => IsIdOf(spec, number, row, id) && SaysAll(spec, row, id, values)
    case Duplicate(id) => IsIdOf(spec, number, row, id) && exists values :: SaysAll(spec, row, id, values)
    case Invalid(name) => HasUnreadable(spec, row, name)
  }

  lemma ChunkSays(spec: Spec, rows: seq<Row>, s: Durable, size: nat, k: nat)
    requires size > 0 && s.csvRow < |rows| && k < |Chunk(rows, s.csvRow, size)|
    ensures var c := Chunk(rows, s.csvRow, size);
      s.csvRow + k < |rows|
      && OutcomeSays(spec, s.csvRow + k + 1, rows[s.csvRow + k], Outcomes(Prepare(spec, s.csvRow + 1, c), s.table)[k])
  {
    var c := Chunk(rows, s.csvRow, size);
    assert c[k] == rows[s.csvRow + k];
    RowIsReadAs(spec, s.csvRow + 1 + k, c[k]);
    hide PrepareRow, Rejected, IsIdOf, SaysAll, HasUnreadable, Chunk;
  }

  lemma BatchSays(spec: Spec, rows: seq<Row>, s: Durable, size: nat)
    requires OutcomesSay(spec, rows, s) && size > 0 && s.csvRow < |rows|
    ensures OutcomesSay(spec, rows, ApplyBatch(spec, s, Chunk(rows, s.csvRow, size)))
  {
    hide OutcomeSays, Outcomes, Prepare, Chunk, ApplyBatch;
    var c := Chunk(rows, s.csvRow, size);
    var s' := ApplyBatch(spec, s, c);
    ChunkFits(rows, s.csvRow, size);
    BatchResults(spec, s, c);
    forall n | 0 <= n < |s'.results| ensures OutcomeSays(spec, n + 1, rows[n], s'.results[n].outcome) {
      if n >= s.csvRow {
        var k := n - s.csvRow;
        ChunkSays(spec, rows, s, size, k);
        assert s'.results[n].outcome == Outcomes(Prepare(spec, s.csvRow + 1, c), s.table)[k];
      }
    }
  }

  lemma ChunkFits(rows: seq<Row>, from: nat, size: nat)
    requires size > 0 && from < |rows|
    ensures from + |Chunk(rows, from, size)| <= |rows|
  {
  }

  lemma BatchResults(spec: Spec, s: Durable, batch: seq<Row>)
    requires |s.results| == s.csvRow
    ensures var s' := ApplyBatch(spec, s, batch);
      && |s'.results| == s'.csvRow == s.csvRow + |batch|
      && (forall n :: 0 <= n < s.csvRow ==> s'.results[n] == s.results[n])
      && forall k :: s.csvRow <= k < s'.csvRow ==>
           s'.results[k].outcome == Outcomes(Prepare(spec, s.csvRow + 1, batch), s.table)[k - s.csvRow]
  {
    hide Outcomes, Prepare, BulkIngest.Insert;
  }

  lemma {:induction false} RunSays(spec: Spec, rows: seq<Row>, s: Durable, size: nat)
    requires OutcomesSay(spec, rows, s) && size > 0
    ensures OutcomesSay(spec, rows, Ingest(spec, s, rows, size).0)
    decreases |rows| - s.csvRow
  {
    hide OutcomesSay, ApplyBatch;
    if s.csvRow < |rows| && !AnyWide(Chunk(rows, s.csvRow, size)) {
      BatchSays(spec, rows, s, size);
      BatchMovesOn(spec, rows, s, size);
      RunSays(spec, rows, ApplyBatch(spec, s, Chunk(rows, s.csvRow, size)), size);
    }
  }

  lemma BatchMovesOn(spec: Spec, rows: seq<Row>, s: Durable, size: nat)
    requires size > 0 && s.csvRow < |rows|
    ensures ApplyBatch(spec, s, Chunk(rows, s.csvRow, size)).csvRow == s.csvRow + |Chunk(rows, s.csvRow, size)|
  {
  }

  /** A row that succeeded stands in the table under the id its cells name, or that of its number, with
      the values its cells say. */
  ghost predicate StandsAsRead(spec: Spec, number: nat, row: Row, table: Table) {
    exists id :: IsIdOf(spec, number, row, id) && id in table && SaysAll(spec, row, id, table[id])
  }

  lemma SuccessesStandAsRead(spec: Spec, table: Table, rows: seq<Row>, size: nat, n: nat)
    requires size > 0
    requires var s := Ingest(spec, Start(table), rows, size).0; n < |s.results| && s.results[n].outcome.Success?
    ensures n < |rows| && StandsAsRead(spec, n + 1, rows[n], Ingest(spec, Start(table), rows, size).0.table)
  {
    var s := Ingest(spec, Start(table), rows, size).0;
    RunSays(spec, rows, Start(table), size);
    StartIsSound(table);
    IngestIsSound(spec, table, Start(table), rows, size);
    hide Ingest, IsIdOf, SaysAll;
    assert OutcomeSays(spec, n + 1, rows[n], s.results[n].outcome);
    assert RowInserted(table, s, s.results[n].outcome);
  }

  /** However a job is interrupted, its successful rows stand as their cells say. */
  method RunStandsAsRead(
    job: BulkIngestJob, header: seq<string>, rows: seq<Row>, size: nat, crashes: seq<nat>) returns (outcome: Outcome)
    requires job.Valid() && size > 0 && ValidHeader(job.spec, header) && job.state == Start(job.before)
    modifies job
    ensures job.Valid() && OutcomesSay(job.spec, rows, job.state) && |job.state.results| <= |rows|
    ensures forall n :: 0 <= n < |job.state.results| && job.state.results[n].outcome.Success? ==>
      StandsAsRead(job.spec, n + 1, rows[n], job.state.table)
  {
    hide Ingest, ValidHeader, OutcomesSay, StandsAsRead, Sound;
    outcome := RunWithCrashes(job, header, rows, size, crashes);
    RunSays(job.spec, rows, Start(job.before), size) by { NothingSaid(job.spec, rows, job.before); }
    assert |job.state.results| <= |rows| by { SaidOfRows(job.spec, rows, job.state); }
    forall n | 0 <= n < |job.state.results| && job.state.results[n].outcome.Success?
      ensures StandsAsRead(job.spec, n + 1, rows[n], job.state.table)
    {
      SuccessesStandAsRead(job.spec, job.before, rows, size, n);
    }
  }

  lemma SaidOfRows(spec: Spec, rows: seq<Row>, s: Durable)
    requires OutcomesSay(spec, rows, s)
    ensures |s.results| <= |rows|
  {
  }

  lemma NothingSaid(spec: Spec, rows: seq<Row>, table: Table)
    ensures OutcomesSay(spec, rows, Start(table))
  {
  }

  /* ---- Written out and read back ---- */

  datatype Entry = Entry(id: string, values: seq<Value>)

  function CellOf(v: Value): string {
    match v
    case Null => ""
    case Flag(b) => if b then "true" else "false"
    case Literal(_, text) => text
  }

  /** Values CSV can hold: a text that is not empty, a literal of its type, a flag of a boolean field,
      and none anywhere but in IsDeleted. */
  predicate Writable(spec: Spec, f: Field, v: Value) {
    match v
    case Null => f.name != "IsDeleted"
    case Flag(_) => f.kind.Boolean?
    case Literal(kind, text) =>
      text != "" && kind == f.kind && !kind.Boolean? && (kind.Text? || spec.parses(kind, text))
  }

  predicate WritableEntry(spec: Spec, e: Entry) {
    && e.id != "" && |e.values| == |spec.fields|
    && forall i :: 0 <= i < |e.values| ==>
         if spec.fields[i].name == spec.idField then e.values[i] == Literal(Text, e.id)
         else Writable(spec, spec.fields[i], e.values[i])
  }

  /** A schema names each field once, the id among them. */
  predicate ValidSchema(spec: Spec) {
    && (forall i, j :: 0 <= i < j < |spec.fields| ==> spec.fields[i].name != spec.fields[j].name)
    && exists i :: 0 <= i < |spec.fields| && spec.fields[i].name == spec.idField
  }

  function Written(spec: Spec, e: Entry): Row
    requires |e.values| == |spec.fields|
  {
    Row(CellsOf(spec.fields, e.values), false)
  }

  function CellsOf(fields: seq<Field>, values: seq<Value>): map<string, string>
    requires |values| == |fields|
  {
    if |fields| == 0 then map[] else CellsOf(fields[1..], values[1..])[fields[0].name := CellOf(values[0])]
  }

  lemma {:induction false} CellIsWritten(fields: seq<Field>, values: seq<Value>, i: nat)
    requires |values| == |fields| && i < |fields|
    requires forall j, k :: 0 <= j < k < |fields| ==> fields[j].name != fields[k].name
    ensures fields[i].name in CellsOf(fields, values) && CellsOf(fields, values)[fields[i].name] == CellOf(values[i])
  {
    if i > 0 { CellIsWritten(fields[1..], values[1..], i - 1); }
  }

  lemma WritableIsSaid(spec: Spec, f: Field, v: Value)
    requires Writable(spec, f, v)
    ensures forall w :: Says(spec, f, CellOf(v), w) <==> w == v
    ensures Readable(spec, f, CellOf(v))
  {
    assert !SaysFalse("true") && !SaysTrue("false") && SaysTrue("true") && SaysFalse("false");
  }

  lemma EntryIsReadBack(spec: Spec, number: nat, e: Entry)
    requires ValidSchema(spec) && WritableEntry(spec, e)
    ensures PrepareRow(spec, number, Written(spec, e)) == Good(e.id, e.values)
  {
    var row := Written(spec, e);
    RowIsReadAs(spec, number, row);
    hide PrepareRow, Says, Readable, Writable, CellsOf;
    forall i | 0 <= i < |spec.fields|
      ensures spec.fields[i].name in row.cells && row.cells[spec.fields[i].name] == CellOf(e.values[i])
      ensures !Unreadable(spec, row, spec.fields[i])
      ensures forall w :: SaysAt(spec, row, e.id, spec.fields[i], w) ==> w == e.values[i]
    {
      CellIsWritten(spec.fields, e.values, i);
      if spec.fields[i].name != spec.idField { WritableIsSaid(spec, spec.fields[i], e.values[i]); }
    }
    var k :| 0 <= k < |spec.fields| && spec.fields[k].name == spec.idField;
    assert row.cells[spec.idField] == e.id;
    match PrepareRow(spec, number, row)
    case Good(id, values) =>
      assert forall i :: 0 <= i < |values| ==> SaysAt(spec, row, id, spec.fields[i], values[i]);
      assert values == e.values;
    case Bad(_) => assert false;
  }

  function WrittenFile(spec: Spec, entries: seq<Entry>): (rows: seq<Row>)
    requires forall i :: 0 <= i < |entries| ==> |entries[i].values| == |spec.fields|
    ensures |rows| == |entries| && forall i :: 0 <= i < |rows| ==> rows[i] == Written(spec, entries[i])
  {
    seq(|entries|, i requires 0 <= i < |entries| => Written(spec, entries[i]))
  }

  ghost predicate NewEntries(spec: Spec, table: Table, entries: seq<Entry>) {
    && (forall i :: 0 <= i < |entries| ==> WritableEntry(spec, entries[i]) && entries[i].id !in table)
    && (forall i, j :: 0 <= i < j < |entries| ==> entries[i].id != entries[j].id)
  }

  lemma FileIsReadBack(spec: Spec, table: Table, entries: seq<Entry>)
    requires ValidSchema(spec) && NewEntries(spec, table, entries)
    ensures var p := File(spec, WrittenFile(spec, entries));
      |p| == |entries| && forall i :: 0 <= i < |p| ==> p[i] == Good(entries[i].id, entries[i].values)
    ensures !RepeatsNewId(spec, table, WrittenFile(spec, entries)) && !AnyWide(WrittenFile(spec, entries))
  {
    var rows := WrittenFile(spec, entries);
    var p := File(spec, rows);
    hide PrepareRow, ValidSchema, WritableEntry;
    forall i | 0 <= i < |p| ensures p[i] == Good(entries[i].id, entries[i].values) {
      EntryIsReadBack(spec, 1 + i, entries[i]);
    }
  }

  lemma AllSucceed(spec: Spec, table: Table, entries: seq<Entry>, p: seq<Prepared>, i: nat)
    requires NewEntries(spec, table, entries) && |p| == |entries| && i < |p|
    requires forall k :: 0 <= k < |p| ==> p[k] == Good(entries[k].id, entries[k].values)
    ensures Outcomes(p, table)[i] == Success(entries[i].id, entries[i].values)
  {
    hide Occurrences, WritableEntry;
    DuplicatesExactly(p, table, i);
  }

  function Ids(entries: seq<Entry>): (r: seq<string>)
    ensures |r| == |entries| && forall i :: 0 <= i < |r| ==> r[i] == entries[i].id
  {
    seq(|entries|, i requires 0 <= i < |entries| => entries[i].id)
  }

  /** The table and these entries. */
  ghost predicate Holds(table: Table, entries: seq<Entry>, after: Table) {
    && after.Keys == table.Keys + Elements(Ids(entries))
    && (forall id :: id in table ==> id in after && after[id] == table[id])
    && (forall i :: 0 <= i < |entries| ==> entries[i].id in after && after[entries[i].id] == entries[i].values)
  }

  lemma EntryStands(table: Table, entries: seq<Entry>, s: Durable, i: nat)
    requires Sound(table, s) && i < |entries| == |s.results|
    requires s.results[i].outcome == Success(entries[i].id, entries[i].values)
    ensures entries[i].id in s.table && s.table[entries[i].id] == entries[i].values
  {
    assert RowInserted(table, s, s.results[i].outcome);
    hide AtMostOnce;
  }

  lemma NewIdIsAnEntry(table: Table, entries: seq<Entry>, s: Durable, id: string)
    requires Sound(table, s) && |s.results| == |entries| && id in s.table && id !in table
    requires forall i :: 0 <= i < |entries| ==> s.results[i].outcome == Success(entries[i].id, entries[i].values)
    ensures id in Elements(Ids(entries))
  {
    var n: nat :| InsertedBy(s, id, n);
    assert Ids(entries)[n] == id;
  }

  lemma EntriesAreHeld(spec: Spec, table: Table, entries: seq<Entry>, s: Durable)
    requires NewEntries(spec, table, entries) && Sound(table, s) && |s.results| == |entries|
    requires forall i :: 0 <= i < |entries| ==> s.results[i].outcome == Success(entries[i].id, entries[i].values)
    ensures Holds(table, entries, s.table) && s.processed == |entries|
  {
    hide Sound, WritableEntry;
    forall i | 0 <= i < |entries|
      ensures entries[i].id in s.table && s.table[entries[i].id] == entries[i].values
    {
      EntryStands(table, entries, s, i);
    }
    forall id | id in s.table && id !in table ensures id in Elements(Ids(entries)) {
      NewIdIsAnEntry(table, entries, s, id);
    }
    OldRowsStay(table, s);
    KeysAreCounted(spec, table, entries, s.table);
  }

  lemma OldRowsStay(table: Table, s: Durable)
    requires Sound(table, s)
    ensures (forall id :: id in table ==> id in s.table && s.table[id] == table[id])
    ensures |s.table| == |table| + s.processed
  {
    hide AtMostOnce;
  }

  lemma KeysAreCounted(spec: Spec, table: Table, entries: seq<Entry>, after: Table)
    requires NewEntries(spec, table, entries)
    requires forall i :: 0 <= i < |entries| ==> entries[i].id in after
    requires forall id :: id in table ==> id in after
    requires forall id :: id in after && id !in table ==> id in Elements(Ids(entries))
    ensures after.Keys == table.Keys + Elements(Ids(entries)) && |after| == |table| + |entries|
  {
    hide WritableEntry;
    var ids := Ids(entries);
    forall id | id in Elements(ids) ensures id in after && id !in table {
      var i :| 0 <= i < |ids| && ids[i] == id;
    }
    assert after.Keys == table.Keys + Elements(ids);
    NoRepeatsLength(ids);
  }

  lemma {:induction false} OnlyWideRowsStop(spec: Spec, s: Durable, rows: seq<Row>, size: nat)
    requires size > 0 && !AnyWide(rows)
    ensures !Ingest(spec, s, rows, size).1
    decreases |rows| - s.csvRow
  {
    hide ApplyBatch, AnyWide, Chunk;
    if s.csvRow < |rows| {
      NoneWide(rows, s.csvRow, size);
      BatchMovesOn(spec, rows, s, size);
      OnlyWideRowsStop(spec, ApplyBatch(spec, s, Chunk(rows, s.csvRow, size)), rows, size);
    }
  }

  lemma FileSucceeds(spec: Spec, table: Table, entries: seq<Entry>, p: seq<Prepared>, s: Durable)
    requires NewEntries(spec, table, entries) && |p| == |entries| && AlongFile(p, table, s) && s.csvRow == |p|
    requires forall k :: 0 <= k < |p| ==> p[k] == Good(entries[k].id, entries[k].values)
    ensures |s.results| == |entries|
    ensures forall i :: 0 <= i < |entries| ==> s.results[i].outcome == Success(entries[i].id, entries[i].values)
  {
    hide NewEntries, HasAmong;
    var o := Outcomes(p, table);
    hide Outcomes;
    forall i | 0 <= i < |entries| ensures o[i] == Success(entries[i].id, entries[i].values) {
      AllSucceed(spec, table, entries, p, i);
    }
  }

  lemma StartIsAlong(p: seq<Prepared>, table: Table)
    ensures AlongFile(p, table, Start(table))
  {
  }

  /** New rows written out as CSV and ingested, in batches of any size, all succeed; the table then
      holds exactly what it held and these rows, value for value. */
  lemma IngestInvertsWriting(spec: Spec, table: Table, entries: seq<Entry>, size: nat)
    requires ValidSchema(spec) && NewEntries(spec, table, entries) && size > 0
    ensures var run := Ingest(spec, Start(table), WrittenFile(spec, entries), size);
      !run.1 && run.0.processed == |entries| && run.0.failed == 0 && Holds(table, entries, run.0.table)
  {
    assert forall i :: 0 <= i < |entries| ==> WritableEntry(spec, entries[i]);
    hide ValidSchema, NewEntries, WritableEntry, AlongFile, Ingest, File, RepeatsNewId, AnyWide, Holds;
    var rows := WrittenFile(spec, entries);
    var s := Ingest(spec, Start(table), rows, size).0;
    FileIsReadBack(spec, table, entries);
    StartIsAlong(File(spec, rows), table);
    SameForEverySize(spec, rows, table, Start(table), size);
    StartIsSound(table);
    IngestIsSound(spec, table, Start(table), rows, size);
    OnlyWideRowsStop(spec, Start(table), rows, size);
    FileSucceeds(spec, table, entries, File(spec, rows), s);
    EntriesAreHeld(spec, table, entries, s);
    assert s.processed + s.failed == s.csvRow;
  }
}
