/** Queries and the orders an engine may scan their data in: what exports and cursors share. */
module QueryScans {
  import opened Wrappers
  import opened Ordering

  type Cells = seq<string>

  /** A result row: its internal id, and the public columns. */
  datatype Row = Row(id: int, cells: Cells)

  function RowId(r: Row): int { r.id }

  /** What of the query decides the order and the extent of the result: the sort key of its own
      ORDER BY, if it has one, and OFFSET and LIMIT. */
  datatype Query = Query(order: Option<Row -> int>, offset: nat, limit: Option<nat>)

  function Cut<T>(q: Query, rows: seq<T>): seq<T> {
    var from := if q.offset <= |rows| then rows[q.offset..] else [];
    match q.limit
    case None => from
    case Some(n) => if n <= |from| then from[..n] else from
  }

  /** An order the engine may scan the data in: any at all, or any that the ORDER BY allows. */
  ghost predicate Scans(q: Query, data: set<Row>, scan: seq<Row>) {
    && NoRepeats(scan) && Elements(scan) == data
    && (q.order.Some? ==> SortedBy(scan, q.order.value))
  }

  /** One of these orders: by the query's key and, among ties, by id. */
  ghost function Canonical(q: Query, data: set<Row>): seq<Row>
    requires DistinctKeys(data, RowId)
  {
    if q.order.Some? then Sort(SortedSet(data, RowId), q.order.value) else SortedSet(data, RowId)
  }

  predicate InWindow(q: Query, p: nat) {
    q.offset <= p && (q.limit.Some? ==> p < q.offset + q.limit.value)
  }

  lemma CanonicalIsAScan(q: Query, data: set<Row>)
    requires DistinctKeys(data, RowId)
    ensures Scans(q, data, Canonical(q, data))
  {
    var listed := SortedSet(data, RowId);
    SortedSetListsTheSet(data, RowId);
    StrictlySortedHasNoRepeats(listed, RowId);
    if q.order.Some? {
      SortIsSortedPermutation(listed, q.order.value);
      PermutedHasNoRepeats(listed, Canonical(q, data));
    }
  }

  lemma PermutedHasNoRepeats<T>(a: seq<T>, b: seq<T>)
    requires NoRepeats(a) && multiset(a) == multiset(b)
    ensures NoRepeats(b)
  {
    forall i, j | 0 <= i < j < |b| ensures b[i] != b[j] {
      if b[i] == b[j] {
        assert b == b[..j] + b[j..];
        assert b[i] in multiset(b[..j]) && b[i] in multiset(b[j..]);
        NoRepeatsCountsOnce(a, b[i]);
      }
    }
  }

  /** Scans of one query agree in their keys, position by position. */
  lemma SameKeys(q: Query, data: set<Row>, a: seq<Row>, b: seq<Row>, p: nat)
    requires q.order.Some? && Scans(q, data, a) && Scans(q, data, b)
    ensures |a| == |b| == |data|
    ensures p < |data| ==> q.order.value(a[p]) <= q.order.value(b[p])
  {
    NoRepeatsLength(a);
    NoRepeatsLength(b);
    if p < |data| && q.order.value(a[p]) > q.order.value(b[p]) {
      forall x | x in Elements(b[..p + 1]) ensures x in Elements(a[..p]) {
        var i :| 0 <= i < p + 1 && b[..p + 1][i] == x;
        assert x in Elements(b);
        var j :| 0 <= j < |a| && a[j] == x;
        assert q.order.value(b[i]) <= q.order.value(b[p]);
        assert j < p;
        assert a[..p][j] == x;
      }
      NoRepeatsLength(b[..p + 1]);
      NoRepeatsLength(a[..p]);
      FewerAreCounted(Elements(b[..p + 1]), Elements(a[..p]));
    }
  }

  lemma ScanHolds(q: Query, data: set<Row>, scan: seq<Row>, p: nat)
    requires Scans(q, data, scan) && p < |scan|
    ensures scan[p] in data
  {
    assert scan[p] in Elements(scan);
  }

  function CutSize(q: Query, n: nat): nat {
    var from := if q.offset <= n then n - q.offset else 0;
    if q.limit.Some? && q.limit.value <= from then q.limit.value else from
  }

  lemma CutAt(q: Query, rows: seq<Row>, i: nat)
    requires i < |Cut(q, rows)|
    ensures q.offset + i < |rows| && InWindow(q, q.offset + i) && Cut(q, rows)[i] == rows[q.offset + i]
  {
    var from := rows[q.offset..];
    assert Cut(q, rows)[i] == from[i];
  }

  /** What stands at place `i` of a delivery. */
  ghost predicate IsAt(q: Query, rows: seq<Row>, i: nat)
    requires i < |Cut(q, rows)|
  {
    q.offset + i < |rows| && InWindow(q, q.offset + i) && Cut(q, rows)[i] == rows[q.offset + i]
  }

  lemma CutIsWindow(q: Query, rows: seq<Row>)
    ensures |Cut(q, rows)| == CutSize(q, |rows|)
    ensures forall i :: 0 <= i < |Cut(q, rows)| ==> IsAt(q, rows, i)
    ensures forall p :: 0 <= p < |rows| && InWindow(q, p) ==> p - q.offset < |Cut(q, rows)|
  {
    forall i: nat | i < |Cut(q, rows)| ensures IsAt(q, rows, i) {
      CutAt(q, rows, i);
    }
  }

  function Swapped<T>(s: seq<T>, i: nat, j: nat): (r: seq<T>)
    requires i < |s| && j < |s|
    ensures |r| == |s| && r[i] == s[j] && r[j] == s[i]
    ensures forall k :: 0 <= k < |s| && k != i && k != j ==> r[k] == s[k]
  {
    s[i := s[j]][j := s[i]]
  }

  /** Rows that tie may change places. */
  lemma SwappedIsAScan(q: Query, data: set<Row>, a: seq<Row>, i: nat, j: nat)
    requires Scans(q, data, a) && i < |a| && j < |a|
    requires q.order.Some? ==> q.order.value(a[i]) == q.order.value(a[j])
    ensures Scans(q, data, Swapped(a, i, j))
  {
    var b := Swapped(a, i, j);
    forall x ensures x in Elements(b) <==> x in Elements(a) {
      if x in Elements(a) {
        var k :| 0 <= k < |a| && a[k] == x;
        assert b[if k == i then j else if k == j then i else k] == x;
      }
      if x in Elements(b) {
        var k :| 0 <= k < |b| && b[k] == x;
        assert a[if k == i then j else if k == j then i else k] == x;
      }
    }
    assert Elements(b) == Elements(a);
  }

  /* ---- Two rows that tie ---- */

  const NORTH: Row := Row(1, ["Northwind"])
  const SOUTH: Row := Row(2, ["Southridge"])

  /** Ordered by a field on which both rows tie. */
  const BY_STAGE: Query := Query(Some((r: Row) => 0), 0, None)

  lemma TwoScans()
    ensures Scans(BY_STAGE, {NORTH, SOUTH}, [NORTH, SOUTH]) && Scans(BY_STAGE, {NORTH, SOUTH}, [SOUTH, NORTH])
  {
    assert [NORTH, SOUTH][0] == NORTH && [NORTH, SOUTH][1] == SOUTH;
    assert [SOUTH, NORTH][0] == SOUTH && [SOUTH, NORTH][1] == NORTH;
    assert Elements([NORTH, SOUTH]) == {NORTH, SOUTH} == Elements([SOUTH, NORTH]);
  }
}
