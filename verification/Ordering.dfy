/** Stable sorting by an integer key, the role Python's `sorted` and SQL's `ORDER BY` play in the
    modelled code.  The facts proved here are the ones every client needs: a sort keeps the
    elements, and a list sorted by a distinct key is determined by its set of elements alone. */
module Ordering {

  predicate SortedBy<T>(s: seq<T>, key: T -> int) {
    forall i, j :: 0 <= i < j < |s| ==> key(s[i]) <= key(s[j])
  }

  predicate StrictlySortedBy<T>(s: seq<T>, key: T -> int) {
    forall i, j :: 0 <= i < j < |s| ==> key(s[i]) < key(s[j])
  }

  /** No two members of `s` share a key: the sort key is the identity of the element. */
  ghost predicate DistinctKeys<T(!new)>(s: set<T>, key: T -> int) {
    forall x, y :: x in s && y in s && key(x) == key(y) ==> x == y
  }

  function Elements<T>(s: seq<T>): set<T> {
    set x | x in s
  }

  function Insert<T>(x: T, s: seq<T>, key: T -> int): seq<T> {
    if |s| == 0 || key(x) <= key(s[0]) then [x] + s
    else [s[0]] + Insert(x, s[1..], key)
  }

  function Sort<T>(s: seq<T>, key: T -> int): seq<T> {
    if |s| == 0 then [] else Insert(s[0], Sort(s[1..], key), key)
  }

  lemma {:induction false} InsertKeepsElements<T>(x: T, s: seq<T>, key: T -> int)
    ensures multiset(Insert(x, s, key)) == multiset{x} + multiset(s)
  {
    if !(|s| == 0 || key(x) <= key(s[0])) {
      InsertKeepsElements(x, s[1..], key);
      assert s == [s[0]] + s[1..];
    }
  }

  lemma {:induction false} InsertKeepsOrder<T>(x: T, s: seq<T>, key: T -> int)
    requires SortedBy(s, key)
    ensures SortedBy(Insert(x, s, key), key)
  {
    if !(|s| == 0 || key(x) <= key(s[0])) {
      var rest := Insert(x, s[1..], key);
      InsertKeepsOrder(x, s[1..], key);
      InsertKeepsElements(x, s[1..], key);
      forall k | 0 <= k < |rest| ensures key(s[0]) <= key(rest[k]) {
        assert rest[k] in multiset(rest);
        assert rest[k] == x || rest[k] in s[1..];
      }
    }
  }

  lemma {:induction false} SortIsSortedPermutation<T>(s: seq<T>, key: T -> int)
    ensures multiset(Sort(s, key)) == multiset(s)
    ensures SortedBy(Sort(s, key), key)
    ensures Elements(Sort(s, key)) == Elements(s)
    ensures |Sort(s, key)| == |s|
  {
    if |s| > 0 {
      SortIsSortedPermutation(s[1..], key);
      InsertKeepsElements(s[0], Sort(s[1..], key), key);
      InsertKeepsOrder(s[0], Sort(s[1..], key), key);
      assert s == [s[0]] + s[1..];
    }
    MultisetElements(Sort(s, key), s);
  }

  lemma MultisetElements<T>(a: seq<T>, b: seq<T>)
    requires multiset(a) == multiset(b)
    ensures Elements(a) == Elements(b)
    ensures |a| == |b|
  {
    forall x ensures x in a <==> x in b {
      assert x in a <==> x in multiset(a);
      assert x in b <==> x in multiset(b);
    }
    assert |a| == |multiset(a)| && |b| == |multiset(b)|;
  }

  /** Sorting is a function of the set of elements when no element repeats and keys are distinct. */
  lemma {:induction false} StrictlySortedUnique<T(!new)>(a: seq<T>, b: seq<T>, key: T -> int)
    requires StrictlySortedBy(a, key) && StrictlySortedBy(b, key)
    requires Elements(a) == Elements(b)
    ensures a == b
  {
    assert forall x :: x in a <==> x in Elements(b);
    assert forall x :: x in b <==> x in Elements(a);
    assert |a| > 0 ==> |b| > 0 by { if |a| > 0 { assert a[0] in b; } }
    assert |b| > 0 ==> |a| > 0 by { if |b| > 0 { assert b[0] in a; } }
    if |a| > 0 {
      assert a[0] in Elements(b) && b[0] in Elements(a);
      assert a[0] == b[0];
      forall x ensures x in a[1..] <==> x in b[1..] {
        assert x in a[1..] <==> x in Elements(a) && x != a[0];
        assert x in b[1..] <==> x in Elements(b) && x != b[0];
      }
      StrictlySortedUnique(a[1..], b[1..], key);
    }
  }

  predicate NoRepeats<T(==)>(s: seq<T>) {
    forall i, j :: 0 <= i < j < |s| ==> s[i] != s[j]
  }

  lemma SortOfDistinctIsStrict<T(!new)>(s: seq<T>, key: T -> int)
    requires NoRepeats(s) && DistinctKeys(Elements(s), key)
    ensures StrictlySortedBy(Sort(s, key), key)
  {
    SortIsSortedPermutation(s, key);
    var t := Sort(s, key);
    forall i, j | 0 <= i < j < |t| ensures key(t[i]) < key(t[j]) {
      assert t[i] in Elements(s) && t[j] in Elements(s);
      if key(t[i]) == key(t[j]) {
        assert t == t[..j] + t[j..];
        assert multiset(t)[t[i]] >= 2 by {
          assert t[i] in multiset(t[..j]) && t[i] in multiset(t[j..]);
        }
        NoRepeatsCountsOnce(s, t[i]);
      }
    }
  }

  lemma {:induction false} NoRepeatsCountsOnce<T>(s: seq<T>, x: T)
    requires NoRepeats(s)
    ensures multiset(s)[x] <= 1
  {
    if |s| > 0 {
      NoRepeatsCountsOnce(s[1..], x);
      assert s == [s[0]] + s[1..];
      if x == s[0] { assert x !in s[1..]; }
    }
  }

  lemma {:induction false} NoRepeatsLength<T>(s: seq<T>)
    requires NoRepeats(s)
    ensures |s| == |Elements(s)|
  {
    if |s| > 0 {
      NoRepeatsLength(s[1..]);
      assert Elements(s) == {s[0]} + Elements(s[1..]);
    }
  }

  lemma {:induction false} SortOfEqualKeys<T>(s: seq<T>, key: T -> int)
    requires forall i, j :: 0 <= i < |s| && 0 <= j < |s| ==> key(s[i]) == key(s[j])
    ensures Sort(s, key) == s
  {
    if |s| > 0 {
      SortOfEqualKeys(s[1..], key);
      assert s == [s[0]] + s[1..];
    }
  }

  lemma StrictlySortedHasNoRepeats<T>(s: seq<T>, key: T -> int)
    requires StrictlySortedBy(s, key)
    ensures NoRepeats(s)
  {
    forall i, j | 0 <= i < j < |s| ensures s[i] != s[j] {
      assert key(s[i]) < key(s[j]);
    }
  }

  /** What `rows` starts with replaced by `before`: the same elements if and only if it had them. */
  lemma CompletedByTheRest<T>(before: seq<T>, rows: seq<T>)
    requires |before| <= |rows|
    ensures multiset(before + rows[|before|..]) == multiset(rows) <==> multiset(before) == multiset(rows[..|before|])
  {
    var rest := rows[|before|..];
    assert rows == rows[..|before|] + rest;
    if multiset(before) + multiset(rest) == multiset(rows[..|before|]) + multiset(rest) {
      assert multiset(before) == multiset(before) + multiset(rest) - multiset(rest);
      assert multiset(rows[..|before|]) == multiset(rows[..|before|]) + multiset(rest) - multiset(rest);
    }
  }

  lemma FewerAreCounted<T>(a: set<T>, b: set<T>)
    requires a <= b
    ensures |a| <= |b|
  {
    assert b == a + (b - a);
  }

  /** `count` elements from `offset` on, or as many as there are. */
  function Slice<T>(s: seq<T>, offset: nat, count: nat): seq<T> {
    if offset >= |s| then []
    else if offset + count <= |s| then s[offset..offset + count]
    else s[offset..]
  }

  /* Sets of integers listed in increasing order, as a sorted directory or key listing. */

  function Self(n: int): int { n }

  lemma Member<T>(s: set<T>) returns (x: T)
    requires s != {}
    ensures x in s
  {
    x :| x in s;
  }

  lemma LeastExists(s: set<int>)
    requires s != {}
    ensures exists least :: least in s && forall d :: d in s ==> least <= d
  {
    LowestExists(s, Self);
    var x: int :| x in s && forall y :: y in s ==> Self(x) <= Self(y);
    assert forall d :: d in s ==> x <= Self(d);
  }

  function Least(s: set<int>): (least: int)
    requires s != {}
    ensures least in s && forall d :: d in s ==> least <= d
  {
    LeastExists(s);
    var least :| least in s && forall d :: d in s ==> least <= d;
    least
  }

  function Negated(n: int): int { -n }

  lemma GreatestExists(s: set<int>)
    requires s != {}
    ensures exists greatest :: greatest in s && forall d :: d in s ==> d <= greatest
  {
    LowestExists(s, Negated);
    var x: int :| x in s && forall y :: y in s ==> Negated(x) <= Negated(y);
    assert forall d :: d in s ==> Negated(x) <= Negated(d);
  }

  function Greatest(s: set<int>): (greatest: int)
    requires s != {}
    ensures greatest in s && forall d :: d in s ==> d <= greatest
  {
    GreatestExists(s);
    var greatest :| greatest in s && forall d :: d in s ==> d <= greatest;
    greatest
  }

  function SortedInts(s: set<int>): seq<int>
    decreases |s|
  {
    if s == {} then [] else [Least(s)] + SortedInts(s - {Least(s)})
  }

  lemma {:induction false} SortedIntsListsTheSet(s: set<int>)
    ensures forall n :: n in SortedInts(s) <==> n in s
    ensures forall i :: 0 <= i < |SortedInts(s)| ==> SortedInts(s)[i] in s
    ensures StrictlySortedBy(SortedInts(s), Self)
    ensures |SortedInts(s)| == |s|
    decreases |s|
  {
    if s != {} {
      var rest := SortedInts(s - {Least(s)});
      SortedIntsListsTheSet(s - {Least(s)});
      forall i | 0 <= i < |rest| ensures Least(s) < rest[i] {
        assert rest[i] in s && rest[i] != Least(s);
      }
    }
  }

  /* A finite set listed by a distinct key, as `ORDER BY` a primary key lists a table. */

  ghost function Lowest<T(!new)>(s: set<T>, key: T -> int): (x: T)
    requires s != {}
    ensures x in s && forall y :: y in s ==> key(x) <= key(y)
  {
    LowestExists(s, key);
    var x :| x in s && forall y :: y in s ==> key(x) <= key(y);
    x
  }

  lemma {:induction false} LowestExists<T(!new)>(s: set<T>, key: T -> int)
    requires s != {}
    ensures exists x :: x in s && forall y :: y in s ==> key(x) <= key(y)
    decreases |s|
  {
    var x := Member(s);
    var rest := s - {x};
    assert forall y :: y in s ==> y == x || y in rest;
    if rest == {} {
      assert forall y :: y in s ==> key(x) <= key(y);
    } else {
      LowestExists(rest, key);
      var z :| z in rest && forall y :: y in rest ==> key(z) <= key(y);
      if key(x) <= key(z) {
        assert forall y :: y in s ==> key(x) <= key(y);
      } else {
        assert z in s && forall y :: y in s ==> key(z) <= key(y);
      }
    }
  }

  ghost function SortedSet<T(!new)>(s: set<T>, key: T -> int): seq<T>
    requires DistinctKeys(s, key)
    decreases |s|
  {
    if s == {} then [] else [Lowest(s, key)] + SortedSet(s - {Lowest(s, key)}, key)
  }

  lemma PrependKeepsStrictOrder<T>(x: T, rest: seq<T>, key: T -> int)
    requires StrictlySortedBy(rest, key)
    requires forall y :: y in Elements(rest) ==> key(x) < key(y)
    ensures StrictlySortedBy([x] + rest, key)
    ensures Elements([x] + rest) == {x} + Elements(rest)
  {
    forall i | 0 <= i < |rest| ensures key(x) < key(rest[i]) {
      assert rest[i] in Elements(rest);
    }
  }

  lemma {:induction false} SortedSetListsTheSet<T(!new)>(s: set<T>, key: T -> int)
    requires DistinctKeys(s, key)
    ensures Elements(SortedSet(s, key)) == s
    ensures StrictlySortedBy(SortedSet(s, key), key)
    decreases |s|
  {
    if s != {} {
      var x := Lowest(s, key);
      var others := s - {x};
      var rest := SortedSet(others, key);
      SortedSetListsTheSet(others, key);
      assert forall y :: y in others ==> key(x) < key(y);
      PrependKeepsStrictOrder(x, rest, key);
      assert SortedSet(s, key) == [x] + rest;
    }
  }

  /** Sorting any repeat-free listing of a set by the key gives the set's one sorted listing. */
  lemma SortListsTheSet<T(!new)>(a: seq<T>, s: set<T>, key: T -> int)
    requires NoRepeats(a) && Elements(a) == s && DistinctKeys(s, key)
    ensures Sort(a, key) == SortedSet(s, key)
  {
    SortOfDistinctIsStrict(a, key);
    SortIsSortedPermutation(a, key);
    SortedSetListsTheSet(s, key);
    StrictlySortedUnique(Sort(a, key), SortedSet(s, key), key);
  }

  /* Rows of a table in key order, as a filtered query returns them. */

  function Select<T>(s: seq<T>, p: T -> bool): seq<T> {
    if |s| == 0 then []
    else (if p(s[0]) then [s[0]] else []) + Select(s[1..], p)
  }

  lemma {:induction false} SelectMembers<T>(s: seq<T>, p: T -> bool, x: T)
    ensures x in Select(s, p) <==> x in s && p(x)
  {
    if |s| > 0 {
      SelectMembers(s[1..], p, x);
      assert x in s <==> x == s[0] || x in s[1..];
    }
  }

  lemma {:induction false} SelectKeepsNoRepeats<T>(s: seq<T>, p: T -> bool)
    requires NoRepeats(s)
    ensures NoRepeats(Select(s, p))
  {
    if |s| > 0 {
      SelectKeepsNoRepeats(s[1..], p);
      var rest := Select(s[1..], p);
      forall i | 0 <= i < |rest| ensures rest[i] != s[0] {
        SelectMembers(s[1..], p, rest[i]);
      }
    }
  }

  lemma SelectElements<T>(s: seq<T>, p: T -> bool)
    ensures forall x :: x in Elements(Select(s, p)) <==> x in s && p(x)
  {
    forall x ensures x in Elements(Select(s, p)) <==> x in s && p(x) {
      SelectMembers(s, p, x);
    }
  }

  lemma FirstIsLowest<T>(s: seq<T>, key: T -> int)
    requires StrictlySortedBy(s, key) && |s| > 0
    ensures forall y :: y in s[1..] ==> key(s[0]) < key(y)
    ensures StrictlySortedBy(s[1..], key)
  {
    forall y | y in s[1..] ensures key(s[0]) < key(y) {
      var i :| 0 <= i < |s[1..]| && s[1..][i] == y;
      assert key(s[0]) < key(s[i + 1]);
    }
  }

  lemma {:induction false} SelectKeepsKeyOrder<T>(s: seq<T>, p: T -> bool, key: T -> int)
    requires StrictlySortedBy(s, key)
    ensures StrictlySortedBy(Select(s, p), key)
  {
    if |s| > 0 {
      FirstIsLowest(s, key);
      SelectKeepsKeyOrder(s[1..], p, key);
      forall y | y in Elements(Select(s[1..], p)) ensures key(s[0]) < key(y) {
        SelectMembers(s[1..], p, y);
      }
      if p(s[0]) { PrependKeepsStrictOrder(s[0], Select(s[1..], p), key); }
    }
  }

  /** The one listing of a set in key order, whichever way it was made. */
  lemma StrictListingIsSortedSet<T(!new)>(a: seq<T>, s: set<T>, key: T -> int)
    requires StrictlySortedBy(a, key) && Elements(a) == s && DistinctKeys(s, key)
    ensures a == SortedSet(s, key)
  {
    SortedSetListsTheSet(s, key);
    StrictlySortedUnique(a, SortedSet(s, key), key);
  }

  /** Inserting a row with a new key keeps a table in key order. */
  lemma InsertKeepsKeyOrder<T(!new)>(x: T, s: seq<T>, key: T -> int)
    requires StrictlySortedBy(s, key) && forall y :: y in Elements(s) ==> key(y) != key(x)
    ensures StrictlySortedBy(Insert(x, s, key), key)
    ensures Elements(Insert(x, s, key)) == Elements(s) + {x}
    decreases |s|
  {
    HeadIsLeast(s, key);
    if !(|s| == 0 || key(x) <= key(s[0])) {
      var rest := Insert(x, s[1..], key);
      assert Elements(s) == {s[0]} + Elements(s[1..]);
      InsertKeepsKeyOrder(x, s[1..], key);
      PrependKeepsStrictOrder(s[0], rest, key);
    } else {
      PrependKeepsStrictOrder(x, s, key);
    }
  }

  lemma HeadIsLeast<T>(s: seq<T>, key: T -> int)
    requires StrictlySortedBy(s, key)
    ensures |s| > 0 ==> s[0] in Elements(s) && forall y :: y in Elements(s[1..]) ==> key(s[0]) < key(y)
    ensures |s| > 0 ==> forall y :: y in Elements(s) ==> key(s[0]) <= key(y)
  {
    if |s| > 0 {
      forall y | y in Elements(s[1..]) ensures key(s[0]) < key(y) {
        var i :| 0 <= i < |s[1..]| && s[1..][i] == y;
        assert key(s[0]) < key(s[i + 1]);
      }
      assert Elements(s) == {s[0]} + Elements(s[1..]);
    }
  }
}
