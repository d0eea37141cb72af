/** Rows that carry a version, the SQL shape that keeps the newest row of every id, and the three
    readers of the repository that rely on it.

    `row_number() OVER (PARTITION BY id ORDER BY version DESC) = 1` is a relation, not a function:
    when two rows of an id share the top version either may be ranked first.  `NewestPerId` allows
    every such choice, and each theorem about a reader holds for all of them. */
module VersionedRows {
  import opened Ordering

  datatype Row = Row(id: string, version: int, fields: map<string, string>)

  type File = seq<Row>

  predicate OneRowPerId(f: File) {
    forall i, j :: 0 <= i < j < |f| ==> f[i].id != f[j].id
  }

  function Ids(f: File): set<string> {
    set r | r in f :: r.id
  }

  /** What the ranking query may return over the rows `input`: one row per id, of top version. */
  ghost predicate NewestPerId(input: set<Row>, out: File) {
    && OneRowPerId(out)
    && Elements(out) <= input
    && (forall r, s :: r in out && s in input && r.id == s.id ==> s.version <= r.version)
    && (forall s :: s in input ==> s.id in Ids(out))
  }

  /** Rows of one id and one version are one and the same row. */
  ghost predicate TiesAreIdentical(rows: set<Row>) {
    forall r, s :: r in rows && s in rows && r.id == s.id && r.version == s.version ==> r == s
  }

  /** The query result is determined up to row order once ties are between identical rows. */
  lemma NewestIsUnique(input: set<Row>, a: File, b: File)
    requires TiesAreIdentical(input)
    requires NewestPerId(input, a) && NewestPerId(input, b)
    ensures multiset(a) == multiset(b)
  {
    assert Elements(a) <= Elements(b) by { NewestContained(input, a, b); }
    assert Elements(b) <= Elements(a) by { NewestContained(input, b, a); }
    SameDistinctRows(a, b);
  }

  lemma NewestContained(input: set<Row>, a: File, b: File)
    requires TiesAreIdentical(input)
    requires NewestPerId(input, a) && NewestPerId(input, b)
    ensures Elements(a) <= Elements(b)
  {
    forall r | r in a ensures r in b {
      assert r in input && r.id in Ids(b);
      var s :| s in b && s.id == r.id;
      assert s in input;
      assert s.version <= r.version && r.version <= s.version;
    }
  }

  lemma {:induction false} DistinctRowsCountOnce(f: File, r: Row)
    requires OneRowPerId(f)
    ensures multiset(f)[r] == if r in f then 1 else 0
  {
    assert NoRepeats(f);
    NoRepeatsCountsOnce(f, r);
    assert r in f <==> r in multiset(f);
  }

  lemma SameDistinctRows(a: File, b: File)
    requires OneRowPerId(a) && OneRowPerId(b) && Elements(a) == Elements(b)
    ensures multiset(a) == multiset(b)
  {
    forall r ensures multiset(a)[r] == multiset(b)[r] {
      DistinctRowsCountOnce(a, r);
      DistinctRowsCountOnce(b, r);
      assert r in a <==> r in Elements(a);
      assert r in b <==> r in Elements(b);
    }
  }

  function WithoutIds(f: File, ids: set<string>): (out: File) {
    if |f| == 0 then []
    else if f[0].id in ids then WithoutIds(f[1..], ids)
    else [f[0]] + WithoutIds(f[1..], ids)
  }

  lemma {:induction false} WithoutIdsKeepsOthers(f: File, ids: set<string>)
    ensures forall r :: r in WithoutIds(f, ids) <==> r in f && r.id !in ids
    ensures OneRowPerId(f) ==> OneRowPerId(WithoutIds(f, ids))
  {
    if |f| > 0 {
      WithoutIdsKeepsOthers(f[1..], ids);
      assert f == [f[0]] + f[1..];
      if OneRowPerId(f) && f[0].id !in ids {
        var rest := WithoutIds(f[1..], ids);
        forall j | 0 <= j < |rest| ensures rest[j].id != f[0].id {
          assert rest[j] in f[1..];
          var k :| 0 <= k < |f| - 1 && f[1..][k] == rest[j];
          assert f[k + 1] == rest[j];
        }
      }
    }
  }

  /** A ranking that keeps the first of equal versions; one admissible answer of the query. */
  function NewestRows(input: File): (out: File) {
    if |input| == 0 then []
    else
      var rest := NewestRows(input[1..]);
      var r := input[0];
      if exists s :: s in rest && s.id == r.id && r.version < s.version then rest
      else [r] + WithoutIds(rest, {r.id})
  }

  lemma OlderRowIsDropped(seen: set<Row>, kept: File, r: Row, s: Row)
    requires NewestPerId(seen, kept) && s in kept && s.id == r.id && r.version < s.version
    ensures NewestPerId({r} + seen, kept)
  {
    assert r.id in Ids(kept);
    forall a, b | a in kept && b in {r} + seen && a.id == b.id ensures b.version <= a.version {
      if b == r { assert s in seen && s.version <= a.version; }
    }
  }

  lemma NewerRowReplaces(seen: set<Row>, kept: File, r: Row)
    requires NewestPerId(seen, kept)
    requires forall s :: s in kept && s.id == r.id ==> s.version <= r.version
    ensures NewestPerId({r} + seen, [r] + WithoutIds(kept, {r.id}))
  {
    WithoutIdsKeepsOthers(kept, {r.id});
    var others := WithoutIds(kept, {r.id});
    var out := [r] + others;
    assert OneRowPerId(out) by {
      forall j | 0 <= j < |others| ensures others[j].id != r.id { assert others[j] in others; }
    }
    forall a, b | a in out && b in {r} + seen && a.id == b.id ensures b.version <= a.version {
      if a == r && b != r {
        assert b.id in Ids(kept);
        var s :| s in kept && s.id == b.id;
      }
    }
    forall t | t in {r} + seen ensures t.id in Ids(out) {
      if t.id == r.id {
        assert r in out;
      } else {
        assert t.id in Ids(kept);
        var u :| u in kept && u.id == t.id;
        assert u in out;
      }
    }
  }

  lemma {:induction false} NewestRowsIsNewestPerId(input: File)
    ensures NewestPerId(Elements(input), NewestRows(input))
  {
    if |input| > 0 {
      var rest, r := NewestRows(input[1..]), input[0];
      NewestRowsIsNewestPerId(input[1..]);
      assert input == [r] + input[1..];
      assert Elements(input) == {r} + Elements(input[1..]);
      if s :| s in rest && s.id == r.id && r.version < s.version {
        OlderRowIsDropped(Elements(input[1..]), rest, r, s);
      } else {
        NewerRowReplaces(Elements(input[1..]), rest, r);
      }
    }
  }
}
