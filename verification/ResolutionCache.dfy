/** The resolution cache under concurrent callers and publications.

    A caller signs the file system first and only then takes the lock, so the sources it computes may
    be newer than the signature they are stored under.  `AnswersAreCurrentExactly` says for which
    signatures every call still answers with the sources of some instant inside the call. */
module ResolutionCache {
  import opened Wrappers

  type Thread = nat

  /** The file system is a history of versions; each has a signature and a set of sources. */
  datatype Files = Files(signature: nat -> int, sources: nat -> set<string>)

  /** A call, from the version it started at; what it signed, then what it computed and when. */
  datatype Phase =
    | Idle
    | Called(since: nat)
    | Signed(since: nat, signedAt: nat)
    | Holding(since: nat, signedAt: nat)
    | Computed(since: nat, signedAt: nat, value: set<string>, at: nat)
    | Returned(since: nat, value: set<string>)

  datatype Entry = Entry(signature: int, value: set<string>)

  datatype World = World(now: nat, entry: Option<Entry>, holder: Option<Thread>, phases: map<Thread, Phase>)

  datatype Action = Publish | Call(t: Thread) | Sign(t: Thread) | Hit(t: Thread) | Miss(t: Thread)
    | Compute(t: Thread) | Store(t: Thread) | Invalidate

  function PhaseOf(w: World, t: Thread): Phase {
    if t in w.phases then w.phases[t] else Idle
  }

  function Put(w: World, t: Thread, p: Phase): World {
    w.(phases := w.phases[t := p])
  }

  predicate Fits(files: Files, w: World, signedAt: nat) {
    w.entry.Some? && w.entry.value.signature == files.signature(signedAt)
  }

  ghost predicate Next(files: Files, w: World, a: Action, w': World) {
    match a
    case Publish => w' == w.(now := w.now + 1)
    case Call(t) => (PhaseOf(w, t).Idle? || PhaseOf(w, t).Returned?) && w' == Put(w, t, Called(w.now))
    case Sign(t) => PhaseOf(w, t).Called? && w' == Put(w, t, Signed(PhaseOf(w, t).since, w.now))
    case Hit(t) =>
      && PhaseOf(w, t).Signed? && w.holder == None && Fits(files, w, PhaseOf(w, t).signedAt)
      && w' == Put(w, t, Returned(PhaseOf(w, t).since, w.entry.value.value))
    case Miss(t) =>
      && PhaseOf(w, t).Signed? && w.holder == None && !Fits(files, w, PhaseOf(w, t).signedAt)
      && w' == Put(w, t, Holding(PhaseOf(w, t).since, PhaseOf(w, t).signedAt)).(holder := Some(t))
    case Compute(t) =>
      && PhaseOf(w, t).Holding?
      && w' == Put(w, t, Computed(PhaseOf(w, t).since, PhaseOf(w, t).signedAt, files.sources(w.now), w.now))
    case Store(t) =>
      && PhaseOf(w, t).Computed?
      && w' == Put(w, t, Returned(PhaseOf(w, t).since, PhaseOf(w, t).value)).(
           holder := None, entry := Some(Entry(files.signature(PhaseOf(w, t).signedAt), PhaseOf(w, t).value)))
    case Invalidate => w.holder == None && w' == w.(entry := None)
  }

  predicate Init(w: World) {
    w.entry == None && w.holder == None && w.phases == map[]
  }

  ghost predicate Run(files: Files, ws: seq<World>, actions: seq<Action>) {
    && |ws| == |actions| + 1 && Init(ws[0])
    && forall i :: 0 <= i < |actions| ==> Next(files, ws[i], actions[i], ws[i + 1])
  }

  /** The value is what the file system held at a version not before `since` and not after `now`. */
  ghost predicate Current(files: Files, since: nat, now: nat, value: set<string>) {
    exists v :: since <= v <= now && value == files.sources(v)
  }

  /** Every answer given so far was current when it was given, and so still is. */
  ghost predicate AnswersAreCurrent(files: Files, w: World) {
    forall t :: PhaseOf(w, t).Returned? ==> Current(files, PhaseOf(w, t).since, w.now, PhaseOf(w, t).value)
  }

  /** A signature seen again means that the sources were the same all along.  Signatures that never
      recur meet this trivially. */
  ghost predicate Telling(files: Files) {
    forall f: nat, at: nat, v: nat ::
      f <= at <= v && files.signature(f) == files.signature(v) ==> files.sources(at) == files.sources(v)
  }

  ghost predicate PhaseSound(files: Files, now: nat, p: Phase) {
    match p
    case Idle => true
    case Called(since) => since <= now
    case Signed(since, signedAt) => since <= signedAt <= now
    case Holding(since, signedAt) => since <= signedAt <= now
    case Computed(since, signedAt, value, at) => since <= signedAt <= at <= now && value == files.sources(at)
    case Returned(since, value) => Current(files, since, now, value)
  }

  /** The stored value was computed no earlier than its signature was taken. */
  ghost predicate EntrySound(files: Files, now: nat, e: Entry) {
    exists f: nat, at: nat :: TakenThen(files, e, f, at) && at <= now
  }

  ghost predicate TakenThen(files: Files, e: Entry, f: nat, at: nat) {
    f <= at && e.signature == files.signature(f) && e.value == files.sources(at)
  }

  ghost predicate Inv(files: Files, w: World) {
    && (w.entry.Some? ==> EntrySound(files, w.now, w.entry.value))
    && forall t :: PhaseSound(files, w.now, PhaseOf(w, t))
  }

  lemma LaterIsSound(files: Files, now: nat, p: Phase)
    requires PhaseSound(files, now, p)
    ensures PhaseSound(files, now + 1, p)
  {
    if p.Returned? {
      var v :| p.since <= v <= now && p.value == files.sources(v);
    }
  }

  /** A stored value answers a caller that signed the same signature. */
  lemma HitIsCurrent(files: Files, now: nat, e: Entry, since: nat, signedAt: nat)
    requires Telling(files) && EntrySound(files, now, e)
    requires since <= signedAt <= now && e.signature == files.signature(signedAt)
    ensures Current(files, since, now, e.value)
  {
    var f: nat, at: nat :| TakenThen(files, e, f, at) && at <= now;
    if at < since {
      assert files.signature(f) == files.signature(signedAt);
      assert e.value == files.sources(signedAt);
    }
  }

  lemma StepKeepsInv(files: Files, w: World, a: Action, w': World)
    requires Telling(files) && Inv(files, w) && Next(files, w, a, w')
    ensures Inv(files, w')
  {
    hide Telling;
    match a {
      case Publish =>
        forall t ensures PhaseSound(files, w'.now, PhaseOf(w', t)) { LaterIsSound(files, w.now, PhaseOf(w, t)); }
        if w.entry.Some? {
          var f: nat, at: nat :| TakenThen(files, w.entry.value, f, at) && at <= w.now;
        }
      case Hit(t) =>
        HitIsCurrent(files, w.now, w.entry.value, PhaseOf(w, t).since, PhaseOf(w, t).signedAt);
        OthersStay(files, w, w', t);
      case Store(t) =>
        var p := PhaseOf(w, t);
        assert PhaseSound(files, w.now, p);
        assert TakenThen(files, w'.entry.value, p.signedAt, p.at);
        OthersStay(files, w, w', t);
      case Compute(t) =>
        assert PhaseSound(files, w.now, PhaseOf(w, t));
        OthersStay(files, w, w', t);
      case Miss(t) =>
        assert PhaseSound(files, w.now, PhaseOf(w, t));
        OthersStay(files, w, w', t);
      case Sign(t) =>
        assert PhaseSound(files, w.now, PhaseOf(w, t));
        OthersStay(files, w, w', t);
      case Call(t) => OthersStay(files, w, w', t);
      case Invalidate =>
        forall t ensures PhaseSound(files, w'.now, PhaseOf(w', t)) { assert PhaseSound(files, w.now, PhaseOf(w, t)); }
    }
  }

  lemma OthersStay(files: Files, w: World, w': World, t: Thread)
    requires Inv(files, w) && w'.now == w.now && t in w'.phases && w'.phases == w.phases[t := w'.phases[t]]
    requires PhaseSound(files, w.now, w'.phases[t])
    ensures forall u :: PhaseSound(files, w'.now, PhaseOf(w', u))
  {
    forall u ensures PhaseSound(files, w'.now, PhaseOf(w', u)) {
      if u != t { assert PhaseOf(w', u) == PhaseOf(w, u); }
    }
  }

  lemma {:induction false} RunKeepsInv(files: Files, ws: seq<World>, actions: seq<Action>, i: nat)
    requires Telling(files) && Run(files, ws, actions) && i < |ws|
    ensures Inv(files, ws[i])
  {
    if i > 0 {
      RunKeepsInv(files, ws, actions, i - 1);
      StepKeepsInv(files, ws[i - 1], actions[i - 1], ws[i]);
    }
  }

  /* ---- Otherwise some call answers with sources from before it ---- */

  lemma {:induction false} PublishUpTo(files: Files, ws: seq<World>, actions: seq<Action>, v: nat)
      returns (ws': seq<World>, actions': seq<Action>)
    requires Run(files, ws, actions) && ws[|ws| - 1].now <= v
    ensures Run(files, ws', actions')
    ensures ws'[|ws'| - 1] == ws[|ws| - 1].(now := v)
    decreases v - ws[|ws| - 1].now
  {
    if ws[|ws| - 1].now == v {
      ws', actions' := ws, actions;
    } else {
      ws', actions' := Extend(files, ws, actions, Publish, ws[|ws| - 1].(now := ws[|ws| - 1].now + 1));
      ws', actions' := PublishUpTo(files, ws', actions', v);
    }
  }

  lemma Extend(files: Files, ws: seq<World>, actions: seq<Action>, a: Action, w: World)
      returns (ws': seq<World>, actions': seq<Action>)
    requires Run(files, ws, actions) && Next(files, ws[|ws| - 1], a, w)
    ensures Run(files, ws', actions') && ws'[|ws'| - 1] == w && |ws'| == |ws| + 1
  {
    ws', actions' := ws + [w], actions + [a];
    forall i | 0 <= i < |actions'| ensures Next(files, ws'[i], actions'[i], ws'[i + 1]) {
      if i < |actions| { assert ws'[i] == ws[i] && ws'[i + 1] == ws[i + 1]; }
    }
  }

  /** Thread 0 signs at `f` and computes at `at`; thread 1 then calls at `v` and hits the entry. */
  lemma StaleAnswer(files: Files, f: nat, at: nat, v: nat) returns (ws: seq<World>, actions: seq<Action>)
    requires f <= at <= v && files.signature(f) == files.signature(v) && files.sources(at) != files.sources(v)
    ensures Run(files, ws, actions) && !AnswersAreCurrent(files, ws[|ws| - 1])
  {
    var w := World(f, None, None, map[]);
    ws, actions := [w], [];
    w := Put(w, 0, Called(f));
    ws, actions := Extend(files, ws, actions, Call(0), w);
    w := Put(w, 0, Signed(f, f));
    ws, actions := Extend(files, ws, actions, Sign(0), w);
    w := Put(w, 0, Holding(f, f)).(holder := Some(0));
    ws, actions := Extend(files, ws, actions, Miss(0), w);
    ws, actions := PublishUpTo(files, ws, actions, at);
    w := Put(w.(now := at), 0, Computed(f, f, files.sources(at), at));
    ws, actions := Extend(files, ws, actions, Compute(0), w);
    w := Put(w, 0, Returned(f, files.sources(at))).(
      holder := None, entry := Some(Entry(files.signature(f), files.sources(at))));
    ws, actions := Extend(files, ws, actions, Store(0), w);
    ws, actions := PublishUpTo(files, ws, actions, v);
    w := Put(w.(now := v), 1, Called(v));
    ws, actions := Extend(files, ws, actions, Call(1), w);
    w := Put(w, 1, Signed(v, v));
    ws, actions := Extend(files, ws, actions, Sign(1), w);
    w := Put(w, 1, Returned(v, files.sources(at)));
    ws, actions := Extend(files, ws, actions, Hit(1), w);
    assert PhaseOf(w, 1) == Returned(v, files.sources(at));
  }

  ghost predicate AlwaysCurrent(files: Files) {
    forall ws: seq<World>, actions: seq<Action> :: Run(files, ws, actions) ==> AnswersAreCurrent(files, ws[|ws| - 1])
  }

  /** Every call of every run answers with the sources of an instant inside it exactly when a
      signature that recurs leaves the sources unchanged in between. */
  lemma AnswersAreCurrentExactly(files: Files)
    ensures AlwaysCurrent(files) <==> Telling(files)
  {
    if Telling(files) {
      forall ws: seq<World>, actions: seq<Action> | Run(files, ws, actions)
        ensures AnswersAreCurrent(files, ws[|ws| - 1])
      {
        RunKeepsInv(files, ws, actions, |ws| - 1);
        var w := ws[|ws| - 1];
        forall t | PhaseOf(w, t).Returned? ensures Current(files, PhaseOf(w, t).since, w.now, PhaseOf(w, t).value) {
          assert PhaseSound(files, w.now, PhaseOf(w, t));
        }
      }
    } else {
      var f: nat, at: nat, v: nat :|
        f <= at <= v && files.signature(f) == files.signature(v) && files.sources(at) != files.sources(v);
      var ws, actions := StaleAnswer(files, f, at, v);
      assert !AnswersAreCurrent(files, ws[|ws| - 1]);
    }
  }

  /** Signatures that never recur are enough, however the sources change. */
  lemma DistinctSignaturesAreEnough(files: Files)
    requires forall f: nat, v: nat :: files.signature(f) == files.signature(v) ==> f == v
    ensures AlwaysCurrent(files)
  {
    AnswersAreCurrentExactly(files);
  }
}
