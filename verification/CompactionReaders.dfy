/** Every reader of a compacted object returns the newest row of each id, in every state a run can
    reach; and exactly which removal orders would have kept that true. */
module CompactionReaders {
  import opened Wrappers
  import opened Ordering
  import opened VersionedRows
  import opened Compaction

  lemma OlderIn(w: World, d: Date, e: Date, r: Row, s: Row)
    requires WellVersioned(w.seed, w.published)
    requires d in w.published && e in w.published && d < e
    requires r in w.published[d] && s in w.published[e] && r.id == s.id
    ensures r.version < s.version
  {
    assert Older(w.published[d], w.published[e]);
  }

  lemma SeedOlder(w: World, e: Date, r: Row, s: Row)
    requires WellVersioned(w.seed, w.published)
    requires e in w.published && r in w.seed && s in w.published[e] && r.id == s.id
    ensures r.version < s.version
  {
    assert Older(w.seed, w.published[e]);
  }

  lemma PublishedTie(w: World, d: Date, e: Date, r: Row, s: Row)
    requires WellVersioned(w.seed, w.published)
    requires d in w.published && e in w.published && r in w.published[d] && s in w.published[e]
    requires r.id == s.id && r.version == s.version
    ensures r == s
  {
    if d < e { OlderIn(w, d, e, r, s); }
    if e < d { OlderIn(w, e, d, s, r); }
    assert OneRowPerId(w.published[d]);
  }

  lemma AllTiesAreIdentical(w: World)
    requires WellVersioned(w.seed, w.published)
    ensures TiesAreIdentical(AllRows(w))
  {
    hide WellVersioned;
    forall r, s | r in AllRows(w) && s in AllRows(w) && r.id == s.id && r.version == s.version
      ensures r == s
    {
      if d :| d in w.published && r in w.published[d] {
        if e :| e in w.published && s in w.published[e] {
          PublishedTie(w, d, e, r, s);
        } else {
          SeedOlder(w, d, s, r);
        }
      } else if e :| e in w.published && s in w.published[e] {
        SeedOlder(w, e, r, s);
      } else {
        SeedTie(w, r, s);
      }
    }
  }

  lemma SeedTie(w: World, r: Row, s: Row)
    requires WellVersioned(w.seed, w.published) && r in w.seed && s in w.seed && r.id == s.id
    ensures r == s
  {
  }

  lemma {:induction false} PermutationKeepsOneRowPerId(a: File, b: File)
    requires multiset(a) == multiset(b) && OneRowPerId(a)
    ensures OneRowPerId(b)
  {
    MultisetElements(a, b);
    forall i, j | 0 <= i < j < |b| ensures b[i].id != b[j].id {
      assert b[i] in Elements(a) && b[j] in Elements(a);
      if b[i] == b[j] {
        assert b == b[..j] + b[j..];
        assert multiset(b)[b[i]] >= 2 by {
          assert b[i] in multiset(b[..j]) && b[i] in multiset(b[j..]);
        }
        DistinctRowsCountOnce(a, b[i]);
      }
    }
  }

  lemma NewestUpToOrder(input: set<Row>, a: File, b: File)
    requires NewestPerId(input, a) && multiset(a) == multiset(b)
    ensures NewestPerId(input, b)
  {
    MultisetElements(a, b);
    PermutationKeepsOneRowPerId(a, b);
    forall r | r in b ensures r in a { assert r in Elements(b); }
    forall s | s in input ensures s.id in Ids(b) {
      assert s.id in Ids(a);
      var r :| r in a && r.id == s.id;
      assert r in Elements(a);
    }
  }

  /** Shadowing: newest rows `latest` of some part of the rows, over a base that answers for the
      rest, answer for everything when every row of a shadowed id is no newer than the shadow, and
      every row of an unshadowed id no newer than the base. */
  lemma ShadowedBaseIsNewest(all: set<Row>, base: File, latest: File)
    requires OneRowPerId(base) && OneRowPerId(latest)
    requires Elements(base) <= all && Elements(latest) <= all
    requires forall r, s :: r in latest && s in all && r.id == s.id ==> s.version <= r.version
    requires forall s :: s in all && s.id !in Ids(latest) ==> s.id in Ids(base)
    requires forall r, s :: r in base && s in all && r.id == s.id && r.id !in Ids(latest)
               ==> s.version <= r.version
    ensures NewestPerId(all, WithoutIds(base, Ids(latest)) + latest)
  {
    WithoutIdsKeepsOthers(base, Ids(latest));
    var kept := WithoutIds(base, Ids(latest));
    var out := kept + latest;
    forall i, j | 0 <= i < j < |out| ensures out[i].id != out[j].id {
      if i < |kept| {
        assert out[i] in kept;
        if j >= |kept| {
          assert out[j] in latest;
          assert out[j].id in Ids(latest);
        }
      }
    }
    forall s | s in all ensures s.id in Ids(out) {
      if s.id in Ids(latest) {
        var r :| r in latest && r.id == s.id;
        assert r in out;
      } else {
        var r :| r in base && r.id == s.id;
        assert r in kept;
        assert r in out;
      }
    }
  }

  /* ---- fakeforce/engine.py ---- */

  lemma DeltaShadowsRightly(w: World, r: Row, s: Row)
    requires Inv(w)
    requires r.id == s.id && s in AllRows(w)
    requires exists d :: d in w.parts && r in w.parts[d]
    requires forall t :: t in RowsOf(w.parts) && t.id == r.id ==> t.version <= r.version
    ensures s.version <= r.version
  {
    var d :| d in w.parts && r in w.parts[d];
    if e :| e in w.published && s in w.published[e] {
      if e in w.parts {
        assert s in RowsOf(w.parts);
      } else {
        assert e < d;
        OlderIn(w, e, d, s, r);
      }
    } else {
      assert Older(w.seed, w.published[d]);
    }
  }

  lemma UndeltadRowIsFolded(w: World, s: Row)
    requires Inv(w) && s in AllRows(w)
    requires forall t :: t in RowsOf(w.parts) ==> t.id != s.id
    ensures w.compacted.None? ==> s in w.seed
    ensures w.compacted.Some? ==> s in RowsThrough(w.seed, w.published, w.folded)
  {
    if s !in w.seed {
      var e :| e in w.published && s in w.published[e];
      assert e in w.parts ==> s in RowsOf(w.parts);
    }
  }

  lemma EngineReadsNewest(w: World, latest: File, out: File)
    requires Inv(w) && EngineReads(w, latest, out)
    ensures NewestPerId(AllRows(w), out)
  {
    var base, all := EffectiveBase(w), AllRows(w);
    assert RowsThrough(w.seed, w.published, w.folded) <= all;
    if |w.parts| == 0 {
      forall s | s in all ensures Dominated(s, Elements(base)) { BaseDominates(w, s); }
      assert NewestPerId(Elements(base), base);
      DominatingSubsetResolvesAlike(Elements(base), all, base);
      NewestUpToOrder(all, base, out);
    } else {
      assert RowsOf(w.parts) <= all;
      forall r, s | r in latest && s in all && r.id == s.id ensures s.version <= r.version {
        assert r in RowsOf(w.parts);
        DeltaShadowsRightly(w, r, s);
      }
      forall s | s in all && s.id !in Ids(latest) ensures Dominated(s, Elements(base)) {
        BaseDominates(w, s);
      }
      BaseAnswers(all, base, latest);
      ShadowedBaseIsNewest(all, base, latest);
      NewestUpToOrder(all, WithoutIds(base, Ids(latest)) + latest, out);
    }
  }

  /** A row no remaining partition mentions is answered by the effective base. */
  lemma BaseDominates(w: World, s: Row)
    requires Inv(w) && s in AllRows(w)
    requires forall t :: t in RowsOf(w.parts) ==> t.id != s.id
    ensures Dominated(s, Elements(EffectiveBase(w)))
  {
    UndeltadRowIsFolded(w, s);
    if w.compacted.None? {
      assert s in Elements(w.seed);
    } else {
      assert s.id in Ids(w.compacted.value);
      var t :| t in w.compacted.value && t.id == s.id;
      assert t in Elements(w.compacted.value);
    }
  }

  lemma BaseAnswers(all: set<Row>, base: File, latest: File)
    requires OneRowPerId(base)
    requires forall s :: s in all && s.id !in Ids(latest) ==> Dominated(s, Elements(base))
    ensures forall s :: s in all && s.id !in Ids(latest) ==> s.id in Ids(base)
    ensures forall r, s :: r in base && s in all && r.id == s.id && r.id !in Ids(latest)
              ==> s.version <= r.version
  {
    forall s | s in all && s.id !in Ids(latest)
      ensures s.id in Ids(base)
      ensures forall r :: r in base && r.id == s.id ==> s.version <= r.version
    {
      assert Dominated(s, Elements(base));
      var t :| t in base && t.id == s.id && s.version <= t.version;
      forall r | r in base && r.id == s.id ensures r == t {
        var i :| 0 <= i < |base| && base[i] == r;
        var j :| 0 <= j < |base| && base[j] == t;
      }
    }
  }

  /* ---- simulator/crm_snapshot.py and simulator/crm_storage.py ---- */

  /** The delta tree, compacted file included, answers for every row it or the removed files hold. */
  lemma DeltaTreeDominates(w: World, s: Row)
    requires Inv(w) && s in AllRows(w) && (s in w.seed ==> w.compacted.Some?)
    ensures Dominated(s, DeltaTreeRows(w))
  {
    if e :| e in w.parts && s in w.parts[e] {
      assert s in RowsOf(w.parts);
    } else {
      if s !in w.seed {
        var d :| d in w.published && s in w.published[d];
        assert d !in w.parts;
      }
      assert s in RowsThrough(w.seed, w.published, w.folded);
      assert s.id in Ids(w.compacted.value);
      var t :| t in w.compacted.value && t.id == s.id;
      assert t in DeltaTreeRows(w);
    }
  }

  lemma DeltaTreeIsPublished(w: World)
    requires Inv(w)
    ensures DeltaTreeRows(w) <= AllRows(w)
  {
    assert RowsThrough(w.seed, w.published, w.folded) <= AllRows(w);
    assert RowsOf(w.parts) <= RowsOf(w.published);
  }

  /** What the delta tree's ranking returns is at least as new as any row. */
  lemma TreeRowDominates(w: World, latest: File, r: Row, s: Row)
    requires Inv(w) && NewestPerId(DeltaTreeRows(w), latest)
    requires r in latest && s in AllRows(w) && r.id == s.id
    ensures s.version <= r.version
  {
    assert r in DeltaTreeRows(w);
    if w.compacted.Some? || s !in w.seed {
      DeltaTreeDominates(w, s);
      var t :| t in DeltaTreeRows(w) && t.id == s.id && s.version <= t.version;
    } else {
      assert r in RowsOf(w.parts);
      var d :| d in w.parts && r in w.parts[d];
      assert Older(w.seed, w.published[d]);
    }
  }

  lemma TreeHasId(w: World, latest: File, s: Row)
    requires Inv(w) && NewestPerId(DeltaTreeRows(w), latest)
    requires s in AllRows(w) && (w.compacted.Some? || s !in w.seed)
    ensures s.id in Ids(latest)
  {
    DeltaTreeDominates(w, s);
    var t :| t in DeltaTreeRows(w) && t.id == s.id && s.version <= t.version;
  }

  lemma SimulatorReadsNewest(w: World, latest: File, out: File)
    requires Inv(w) && SimulatorReads(w, latest, out)
    ensures NewestPerId(AllRows(w), out)
  {
    var all := AllRows(w);
    if |w.parts| == 0 && w.compacted.None? {
      assert all == Elements(w.seed);
      assert NewestPerId(all, w.seed);
      NewestUpToOrder(all, w.seed, out);
    } else {
      DeltaTreeIsPublished(w);
      forall r, s | r in latest && s in all && r.id == s.id ensures s.version <= r.version {
        TreeRowDominates(w, latest, r, s);
      }
      forall s | s in all && (w.compacted.Some? || s !in w.seed) ensures s.id in Ids(latest) {
        TreeHasId(w, latest, s);
      }
      BaseAnswersItself(all, w.seed, latest);
      ShadowedBaseIsNewest(all, w.seed, latest);
      NewestUpToOrder(all, WithoutIds(w.seed, Ids(latest)) + latest, out);
    }
  }

  lemma BaseAnswersItself(all: set<Row>, base: File, latest: File)
    requires OneRowPerId(base)
    requires forall s :: s in all && s.id !in Ids(latest) ==> s in base
    ensures forall s :: s in all && s.id !in Ids(latest) ==> s.id in Ids(base)
    ensures forall r, s :: r in base && s in all && r.id == s.id && r.id !in Ids(latest)
              ==> s.version <= r.version
  {
    forall s | s in all && s.id !in Ids(latest) ensures Dominated(s, Elements(base)) {
      assert s in Elements(base);
    }
    BaseAnswers(all, base, latest);
  }

  lemma PublisherReadsNewest(w: World, ids: set<string>, out: File)
    requires Inv(w) && PublisherReads(w, ids, out)
    ensures NewestPerId(WithIds(AllRows(w), ids), out)
  {
    DeltaTreeIsPublished(w);
    var input, all := WithIds(Elements(w.seed) + DeltaTreeRows(w), ids), WithIds(AllRows(w), ids);
    forall s | s in all ensures Dominated(s, input) {
      if s in w.seed {
        assert s in input;
      } else {
        DeltaTreeDominates(w, s);
        var t :| t in DeltaTreeRows(w) && t.id == s.id && s.version <= t.version;
        assert t in input;
      }
    }
    DominatingSubsetResolvesAlike(input, all, out);
  }

  /** In any state of any run, the engine and the simulator return the same rows, and those are the
      rows of the reference reading of everything published; the publisher's restricted reading
      agrees with it too. */
  lemma ReadersAgree(
    ws: seq<World>, acts: seq<Action>, i: nat,
    engineLatest: File, engine: File, simLatest: File, simulator: File,
    ids: set<string>, publisher: File, reference: File)
    requires Run(ws, acts) && i < |ws|
    requires EngineReads(ws[i], engineLatest, engine)
    requires SimulatorReads(ws[i], simLatest, simulator)
    requires PublisherReads(ws[i], ids, publisher)
    requires NewestPerId(AllRows(ws[i]), reference)
    ensures multiset(engine) == multiset(simulator) == multiset(reference)
    ensures Elements(publisher) == WithIds(Elements(reference), ids)
  {
    var w := ws[i];
    RunKeepsInv(ws, acts, i);
    EngineReadsNewest(w, engineLatest, engine);
    SimulatorReadsNewest(w, simLatest, simulator);
    PublisherReadsNewest(w, ids, publisher);
    AllTiesAreIdentical(w);
    NewestIsUnique(AllRows(w), engine, reference);
    NewestIsUnique(AllRows(w), simulator, reference);
    RestrictedNewest(AllRows(w), ids, reference, publisher);
  }

  lemma RestrictedNewest(all: set<Row>, ids: set<string>, whole: File, restricted: File)
    requires TiesAreIdentical(all)
    requires NewestPerId(all, whole) && NewestPerId(WithIds(all, ids), restricted)
    ensures Elements(restricted) == WithIds(Elements(whole), ids)
  {
    forall r | r in Elements(restricted) ensures r in WithIds(Elements(whole), ids) {
      assert r.id in Ids(whole);
      var s :| s in whole && s.id == r.id;
      assert s in WithIds(all, ids);
    }
    forall r | r in WithIds(Elements(whole), ids) ensures r in Elements(restricted) {
      assert r in WithIds(all, ids);
      assert r.id in Ids(restricted);
      var s :| s in restricted && s.id == r.id;
      assert s in WithIds(all, ids) && s.version == r.version;
    }
  }

  /* ---- Which removals are safe ---- */

  /** A base folding everything is in place and an arbitrary set of partitions has been removed. */
  ghost predicate FoldedWithSomeRemoved(w: World) {
    && WellVersioned(w.seed, w.published)
    && w.compacted.Some? && NewestPerId(AllRows(w), w.compacted.value)
    && (forall d :: d in w.parts ==> d in w.published && w.parts[d] == w.published[d])
  }

  /** No remaining partition mentions an id whose newest mention has been removed. */
  ghost predicate RemainingShadowsAreNewest(w: World) {
    forall d, e, r, s ::
      d in w.parts && e in w.published && e !in w.parts && d < e
      && r in w.parts[d] && s in w.published[e] && r.id == s.id
      ==> NewerRemains(w, e, r.id)
  }

  ghost predicate NewerRemains(w: World, e: Date, id: string) {
    exists f, t :: f in w.parts && e < f && t in w.parts[f] && t.id == id
  }

  /** The engine answers rightly after removing an arbitrary set of merged partitions exactly when
      no remaining partition shadows a removed newer one. */
  lemma RemovalSafeExactly(w: World, latest: File, out: File)
    requires FoldedWithSomeRemoved(w) && EngineReads(w, latest, out)
    ensures NewestPerId(AllRows(w), out) <==> RemainingShadowsAreNewest(w)
  {
    if RemainingShadowsAreNewest(w) {
      SafeRemovalReadsNewest(w, latest, out);
    } else {
      UnsafeRemovalReadsStale(w, latest, out);
    }
  }

  lemma SafeShadowDominates(w: World, d: Date, r: Row, s: Row)
    requires FoldedWithSomeRemoved(w) && RemainingShadowsAreNewest(w)
    requires d in w.parts && r in w.parts[d] && s in AllRows(w) && r.id == s.id
    requires forall t :: t in RowsOf(w.parts) && t.id == r.id ==> t.version <= r.version
    ensures s.version <= r.version
  {
    if e :| e in w.published && s in w.published[e] {
      if e in w.parts {
        assert s in RowsOf(w.parts);
      } else if d < e {
        assert NewerRemains(w, e, r.id);
        var f, t :| f in w.parts && e < f && t in w.parts[f] && t.id == r.id;
        OlderIn(w, e, f, s, t);
        assert t in RowsOf(w.parts);
      } else {
        assert e != d;
        OlderIn(w, e, d, s, r);
      }
    } else {
      SeedOlder(w, d, s, r);
    }
  }

  lemma SafeRemovalReadsNewest(w: World, latest: File, out: File)
    requires FoldedWithSomeRemoved(w) && EngineReads(w, latest, out)
    requires RemainingShadowsAreNewest(w)
    ensures NewestPerId(AllRows(w), out)
  {
    var base, all := w.compacted.value, AllRows(w);
    if |w.parts| == 0 {
      NewestUpToOrder(all, base, out);
    } else {
      assert RowsOf(w.parts) <= RowsOf(w.published) <= all;
      forall r, s | r in latest && s in all && r.id == s.id ensures s.version <= r.version {
        assert r in RowsOf(w.parts);
        var d :| d in w.parts && r in w.parts[d];
        SafeShadowDominates(w, d, r, s);
      }
      ShadowedBaseIsNewest(all, base, latest);
      NewestUpToOrder(all, WithoutIds(base, Ids(latest)) + latest, out);
    }
  }

  lemma UnsafeRemovalReadsStale(w: World, latest: File, out: File)
    requires FoldedWithSomeRemoved(w) && EngineReads(w, latest, out)
    requires !RemainingShadowsAreNewest(w)
    ensures !NewestPerId(AllRows(w), out)
  {
    var d, e, r, s :|
      d in w.parts && e in w.published && e !in w.parts && d < e
      && r in w.parts[d] && s in w.published[e] && r.id == s.id
      && !NewerRemains(w, e, r.id);
    assert r in RowsOf(w.parts);
    assert r.id in Ids(latest);
    var t :| t in latest && t.id == r.id;
    StaleShadow(w, e, s, t);
    var answer := WithoutIds(EffectiveBase(w), Ids(latest)) + latest;
    MultisetElements(answer, out);
    assert t in answer;
    assert t in Elements(out);
    assert s in AllRows(w);
  }

  lemma StaleShadow(w: World, e: Date, s: Row, t: Row)
    requires FoldedWithSomeRemoved(w)
    requires e in w.published && e !in w.parts && s in w.published[e]
    requires t in RowsOf(w.parts) && t.id == s.id && !NewerRemains(w, e, s.id)
    ensures t.version < s.version
  {
    var f :| f in w.parts && t in w.parts[f];
    assert f < e;
    OlderIn(w, f, e, t, s);
  }

  const DAY25 := Row("006a", 25, map["Name" := "day25"])
  const DAY26 := Row("006a", 26, map["Name" := "day26"])

  /** Two days change one record; both are folded, and the newer partition was unlinked first. */
  const NEWEST_REMOVED_FIRST := World(
    [], Some([DAY26]), map[25 := [DAY25]], Idle, map[25 := [DAY25], 26 := [DAY26]], 26)

  lemma OneRowFile(r: Row)
    ensures Elements([r]) == {r} && Ids([r]) == {r.id}
  {
    assert r in [r];
    assert forall s :: s in [r] ==> s == r;
  }

  lemma NewestRemovedFirstRows()
    ensures AllRows(NEWEST_REMOVED_FIRST) == {DAY25, DAY26}
    ensures RowsOf(NEWEST_REMOVED_FIRST.parts) == {DAY25}
    ensures FoldedWithSomeRemoved(NEWEST_REMOVED_FIRST)
  {
    var w := NEWEST_REMOVED_FIRST;
    OneRowFile(DAY25);
    OneRowFile(DAY26);
    assert forall d :: d in w.published <==> d == 25 || d == 26;
    assert DAY25 in w.published[25] && DAY26 in w.published[26] && DAY25 in w.parts[25];
    assert DAY25 in RowsOf(w.published) && DAY26 in RowsOf(w.published) && DAY25 in RowsOf(w.parts);
  }

  /** Removing the newer partition first resurrects the older row. */
  lemma NewestFirstRemovalFails()
    ensures FoldedWithSomeRemoved(NEWEST_REMOVED_FIRST)
    ensures EngineReads(NEWEST_REMOVED_FIRST, [DAY25], [DAY25])
    ensures !NewestPerId(AllRows(NEWEST_REMOVED_FIRST), [DAY25])
  {
    NewestRemovedFirstRows();
    OneRowFile(DAY25);
    OneRowFile(DAY26);
    assert WithoutIds([DAY26], {"006a"}) == [];
    assert DAY26 in AllRows(NEWEST_REMOVED_FIRST) && DAY25 in [DAY25];
  }
}
