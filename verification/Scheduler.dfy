/** The daily simulation as a whole: CRM, Ops and ERP date by date under one watermark.

    An attempt may crash at any durable write of any source; a later attempt starts over from the
    watermark.  Whatever the crashes, a catch-up that completes leaves exactly what a history without
    crashes leaves. */
module Scheduler {
  import opened Wrappers
  import opened Ordering
  import opened OpsEvents
  import opened SimulationState
  import opened CrmStages
  import OpsDay
  import OpsTables
  import OpsTrack
  import OpsReplay
  import OpsRun
  import OpsHandoff
  import OpsOneOrder
  import OpsFromCrm
  import OpsTiming
  import CrmRun
  import Erp
  import ErpLedger
  import ErpAmounts
  import ErpRun

  /** An Ops history, and the books it posts to. */
  datatype World = World(link: OpsHandoff.Link, policy: Erp.Policy, books: Erp.ErpDb)

  ghost predicate Sound(w: World) {
    && OpsHandoff.Sound(w.link) && OpsHandoff.Bookable(w.link, w.books.books)
    && (forall a, b :: w.policy.eventId(a) == w.policy.eventId(b) ==> a == b)
    && (forall e :: w.policy.eventId(e) !in w.books.markers)
    && (forall k :: k in w.books.postings ==> w.books.postings[k].document.None?)
  }

  ghost function Postings(w: World): ErpLedger.Setting
    requires Sound(w)
  {
    OpsHandoff.ErpSetting(w.link, w.policy, w.books)
  }

  lemma PostingsAreSound(w: World)
    requires Sound(w)
    ensures ErpLedger.Sound(Postings(w)) && Postings(w).p == w.policy && Postings(w).base == w.books
    ensures Postings(w).baseline == w.link.ops.baseline
  {
    hide OpsHandoff.Sound, OpsHandoff.Bookable, ErpLedger.Handed;
    forall d | d > w.link.ops.baseline ensures ErpLedger.Handed(Postings(w), d) {
      OpsHandoff.OpsHandsOver(w.link, w.policy, w.books, d);
    }
  }

  ghost function OpsContext(w: World, d: Date): (c: OpsTrack.Context)
    requires Sound(w) && d > w.link.ops.baseline
    ensures OpsTrack.Ready(c) && c.sim == w.link.ops.sim && c.d == d && c.crm == w.link.ops.crm(d)
  {
    OpsRun.DateContext(w.link.ops, d)
  }

  /** Ops can be resumed on date `d`; once marked applied, it is done with it. */
  ghost predicate OpsStands(w: World, d: Date, now: OpsTrack.Durable, applied: bool)
    requires Sound(w) && d > w.link.ops.baseline
  {
    && OpsRun.Recoverable(OpsContext(w, d), now)
    && (applied ==> OpsTrack.OnTrack(OpsContext(w, d), now, 3, 2))
  }

  ghost predicate ErpDone(w: World, d: Date, ledger: set<Erp.Posting>, db: Erp.ErpDb)
    requires Sound(w) && d >= w.link.ops.baseline
  {
    PostingsAreSound(w);
    ledger == ErpLedger.Through(Postings(w), d) && ErpLedger.Posted(Postings(w), ledger, db)
  }

  ghost predicate ErpStands(w: World, d: Date, ledger: set<Erp.Posting>, db: Erp.ErpDb, applied: bool)
    requires Sound(w) && d > w.link.ops.baseline
  {
    PostingsAreSound(w);
    && ErpRun.Recoverable(Postings(w), d, ledger, db)
    && (applied ==> ErpDone(w, d, ledger, db))
  }

  lemma OpsIsSound(w: World)
    requires Sound(w)
    ensures OpsRun.Sound(w.link.ops)
  {
  }

  /** Done with a date, Ops stands at the start of the next. */
  lemma OpsNextDate(w: World, d: Date, now: OpsTrack.Durable)
    requires Sound(w) && d > w.link.ops.baseline && OpsStands(w, d, now, true)
    ensures OpsStands(w, d + 1, now, false) && OpsTrack.OnTrack(OpsContext(w, d + 1), now, 0, 0)
  {
    hide Sound, OpsTrack.OnTrack, OpsTrack.Ready, OpsRun.DateContext, OpsRun.Sound;
    OpsIsSound(w);
    OpsRun.NextDateStarts(w.link.ops, d, now);
  }

  /** Done with a date, ERP stands at the start of the next. */
  lemma ErpNextDate(w: World, d: Date, ledger: set<Erp.Posting>, db: Erp.ErpDb)
    requires Sound(w) && d >= w.link.ops.baseline && ErpDone(w, d, ledger, db)
    ensures ErpStands(w, d + 1, ledger, db, false)
  {
    hide Sound, ErpLedger.Posted, ErpLedger.Through, ErpLedger.Sound, ErpLedger.Scheduled, ErpLedger.Consistent;
    hide ErpRun.Planned, Postings;
    PostingsAreSound(w);
    var s := Postings(w);
    assert ErpLedger.Through(s, d) + {} == ErpLedger.Through(s, d);
    assert ErpRun.OnTrack(s, d + 1, ledger, db, false, false);
  }

  lemma IssuedAlike(k: OpsHandoff.Link, a: OpsTables.OpsDb, b: OpsTables.OpsDb)
    requires a.invoices == b.invoices && a.orders == b.orders && a.invoiceIds == b.invoiceIds
    ensures OpsHandoff.IssuedInvoices(k, a) == OpsHandoff.IssuedInvoices(k, b)
  {
    forall o ensures OpsHandoff.Shown(k, a, o) <==> OpsHandoff.Shown(k, b, o) {}
  }

  lemma VisibleIsIssued(w: World, d: Date)
    requires Sound(w) && d > w.link.ops.baseline
    ensures OpsHandoff.Visible(w.link, d) == OpsHandoff.IssuedInvoices(w.link, OpsRun.Through(w.link.ops, d).db)
  {
    hide OpsHandoff.IssuedInvoices, OpsRun.Through, OpsHandoff.Sound;
  }

  lemma ThroughIs(w: World, d: Date)
    requires Sound(w) && d > w.link.ops.baseline
    ensures OpsRun.Through(w.link.ops, d).db == OpsTrack.Reference(OpsContext(w, d), 2)
  {
    hide Sound, OpsRun.Through, OpsRun.Sound, OpsTrack.Reference, OpsTrack.Ready, OpsRun.DateContext;
    OpsIsSound(w);
    OpsRun.ThroughIsReference(w.link.ops, d);
  }

  /** What ERP reads of the Ops database as it stands is what the uninterrupted history shows. */
  lemma InvoicesAreVisible(w: World, d: Date, now: OpsTrack.Durable)
    requires Sound(w) && d > w.link.ops.baseline && OpsStands(w, d, now, true)
    ensures OpsHandoff.IssuedInvoices(w.link, now.db) == OpsHandoff.Visible(w.link, d)
  {
    hide OpsTrack.OnTrack, OpsTrack.Ready, OpsTrack.Reference, OpsHandoff.IssuedInvoices, OpsRun.Through, OpsContext;
    hide Sound, OpsHandoff.Visible;
    OpsTrack.OnTrackIsReference(OpsContext(w, d), now, 3, 2);
    VisibleIsIssued(w, d);
    OpsIsSound(w);
    ThroughIs(w, d);
    IssuedAlike(w.link, now.db, OpsRun.Through(w.link.ops, d).db);
  }

  /* ---- The world CRM's records make ---- */

  /** Everything a simulation starts from: how Ops sees CRM events, the seed databases, the policies. */
  datatype Venture = Venture(
    feed: OpsFromCrm.Feed, sim: Simulation, base: OpsTables.OpsDb, baseline: Date, voided: set<int>,
    company: int -> string, currency: int -> string, policy: Erp.Policy, books: Erp.ErpDb)

  function LinkOf(v: Venture, recorded: map<Date, seq<StageEvent>>): OpsHandoff.Link {
    OpsHandoff.Link(
      OpsRun.Setting(v.sim, v.base, v.baseline, (d: Date) => OpsFromCrm.CrmThrough(v.feed, recorded, d)),
      v.voided, v.company, v.currency)
  }

  /** The history that Ops and ERP have of what CRM recorded. */
  function WorldOf(v: Venture, recorded: map<Date, seq<StageEvent>>): World {
    World(LinkOf(v, recorded), v.policy, v.books)
  }

  /** Sound seeds, and master data that can book whatever CRM draws. */
  ghost predicate Viable(v: Venture) {
    && OpsFromCrm.Sound(v.feed) && Injective(v.sim) && OpsTables.SeedDb(v.sim, v.base)
    && OpsHandoff.IdsSound(v.base) && v.voided <= v.base.invoices.Keys
    && OpsHandoff.SeedInvoices(v.base, v.baseline)
    && (forall a, b :: v.policy.eventId(a) == v.policy.eventId(b) ==> a == b)
    && (forall e :: v.policy.eventId(e) !in v.books.markers)
    && (forall k :: k in v.books.postings ==> v.books.postings[k].document.None?)
    && (forall recorded :: CanBook(v, recorded))
  }

  ghost predicate CanBook(v: Venture, recorded: map<Date, seq<StageEvent>>) {
    OpsHandoff.Sound(LinkOf(v, recorded)) ==> OpsHandoff.Bookable(LinkOf(v, recorded), v.books.books)
  }

  lemma WorldIsSound(v: Venture, recorded: map<Date, seq<StageEvent>>)
    requires Viable(v)
    ensures Sound(WorldOf(v, recorded))
  {
    hide OpsTables.SeedDb, OpsHandoff.IdsSound, OpsHandoff.Bookable, OpsFromCrm.Sound, Injective;
    forall d ensures DistinctKeys(LinkOf(v, recorded).ops.crm(d), CrmId) {
      OpsFromCrm.CrmIdsDiffer(v.feed, recorded, d);
    }
    assert OpsRun.Sound(LinkOf(v, recorded).ops);
    assert CanBook(v, recorded);
  }

  /** Recording a new date's events leaves Ops at the start of that date where it was. */
  lemma OpsStillStarts(
    v: Venture, recorded: map<Date, seq<StageEvent>>, d: Date, events: seq<StageEvent>, now: OpsTrack.Durable)
    requires Viable(v) && d > v.baseline && d !in recorded
    requires Sound(WorldOf(v, recorded)) && Sound(WorldOf(v, recorded[d := events]))
    requires OpsTrack.OnTrack(OpsContext(WorldOf(v, recorded), d), now, 0, 0)
    ensures OpsTrack.OnTrack(OpsContext(WorldOf(v, recorded[d := events]), d), now, 0, 0)
  {
    var s, t := LinkOf(v, recorded).ops, LinkOf(v, recorded[d := events]).ops;
    forall e | e < d ensures s.crm(e) == t.crm(e) {
      OpsFromCrm.CrmIsLocal(v.feed, recorded, d, events, e);
    }
    OpsIsSound(WorldOf(v, recorded));
    OpsIsSound(WorldOf(v, recorded[d := events]));
    assert t == s.(crm := t.crm);
    hide Sound, Viable, OpsRun.Sound, OpsTrack.OnTrack, OpsTrack.Ready, OpsRun.Through, OpsRun.DateContext;
    StartIsLocal(s, t, d, now);
  }

  lemma StartIsLocal(s: OpsRun.Setting, t: OpsRun.Setting, d: Date, now: OpsTrack.Durable)
    requires OpsRun.Sound(s) && OpsRun.Sound(t) && t == s.(crm := t.crm) && d > s.baseline
    requires forall e :: e < d ==> s.crm(e) == t.crm(e)
    requires OpsTrack.OnTrack(OpsRun.DateContext(s, d), now, 0, 0)
    ensures OpsTrack.OnTrack(OpsRun.DateContext(t, d), now, 0, 0)
  {
    hide OpsRun.Sound, OpsTrack.OnTrack, OpsTrack.Ready, OpsRun.Through;
    OpsRun.ThroughIsLocal(s, t, d - 1);
    SameStart(OpsRun.DateContext(s, d), OpsRun.DateContext(t, d), now);
  }

  lemma SameStart(a: OpsTrack.Context, b: OpsTrack.Context, now: OpsTrack.Durable)
    requires OpsTrack.Ready(a) && OpsTrack.Ready(b) && a == b.(crm := a.crm)
    requires OpsTrack.OnTrack(a, now, 0, 0)
    ensures OpsTrack.OnTrack(b, now, 0, 0)
  {
    hide OpsReplay.SameIds;
    OpsTrack.LedgerIsConsistent(a, 0);
    OpsTrack.LedgerIsConsistent(b, 0);
    hide OpsTrack.Ready, OpsTrack.Ledger;
  }

  /** And ERP done with the date before is so still. */
  lemma ErpIsStillDone(
    v: Venture, recorded: map<Date, seq<StageEvent>>, d: Date, events: seq<StageEvent>,
    ledger: set<Erp.Posting>, db: Erp.ErpDb)
    requires Viable(v) && d > v.baseline && d !in recorded
    requires Sound(WorldOf(v, recorded)) && Sound(WorldOf(v, recorded[d := events]))
    requires ErpDone(WorldOf(v, recorded), d - 1, ledger, db)
    ensures ErpDone(WorldOf(v, recorded[d := events]), d - 1, ledger, db)
  {
    var a, b := WorldOf(v, recorded), WorldOf(v, recorded[d := events]);
    SeesAlikeBefore(v, recorded, d, events);
    hide Viable, Sound, Postings, ErpDone;
    ErpDoneAlike(a, b, d - 1, ledger, db);
  }

  lemma ErpDoneAlike(a: World, b: World, d: Date, ledger: set<Erp.Posting>, db: Erp.ErpDb)
    requires Sound(a) && Sound(b) && b == a.(link := b.link)
    requires a.link.ops.baseline == b.link.ops.baseline <= d
    requires forall e :: a.link.ops.baseline < e <= d ==> Postings(a).visible(e) == Postings(b).visible(e)
    requires ErpDone(a, d, ledger, db)
    ensures ErpDone(b, d, ledger, db)
  {
    PostingsAreSound(a);
    PostingsAreSound(b);
    SamePostings(a, b);
    hide Sound, Postings, ErpLedger.Sound, ErpLedger.Through, ErpLedger.Posted;
    ErpLedger.ThroughIsLocal(Postings(a), Postings(b), d);
    PostedAlike(Postings(a), Postings(b), ledger, db);
  }

  lemma SeesAlikeBefore(v: Venture, recorded: map<Date, seq<StageEvent>>, d: Date, events: seq<StageEvent>)
    requires Viable(v) && d !in recorded
    requires Sound(WorldOf(v, recorded)) && Sound(WorldOf(v, recorded[d := events]))
    ensures forall e :: v.baseline < e <= d - 1 ==>
      Postings(WorldOf(v, recorded)).visible(e) == Postings(WorldOf(v, recorded[d := events])).visible(e)
  {
    var a, b := WorldOf(v, recorded), WorldOf(v, recorded[d := events]);
    hide Viable, Sound, Postings;
    forall e | v.baseline < e <= d - 1 ensures Postings(a).visible(e) == Postings(b).visible(e) {
      forall x | x <= e ensures a.link.ops.crm(x) == b.link.ops.crm(x) {
        OpsFromCrm.CrmIsLocal(v.feed, recorded, d, events, x);
      }
      SeesAlike(a, b, e);
    }
  }

  lemma SamePostings(a: World, b: World)
    requires Sound(a) && Sound(b) && b == a.(link := b.link) && b.link.ops.baseline == a.link.ops.baseline
    ensures Postings(b) == Postings(a).(visible := Postings(b).visible)
  {
    hide OpsHandoff.Sound, OpsHandoff.Bookable, OpsHandoff.Visible;
  }

  lemma SeesAlike(a: World, b: World, d: Date)
    requires Sound(a) && Sound(b) && b.link == a.link.(ops := a.link.ops.(crm := b.link.ops.crm))
    requires forall x :: x <= d ==> a.link.ops.crm(x) == b.link.ops.crm(x)
    ensures Postings(a).visible(d) == Postings(b).visible(d)
  {
    hide OpsHandoff.Bookable;
    OpsHandoff.VisibleIsLocal(a.link, b.link, d);
    hide OpsHandoff.Sound, OpsHandoff.Visible;
  }

  lemma PostedAlike(s: ErpLedger.Setting, t: ErpLedger.Setting, l: set<Erp.Posting>, db: Erp.ErpDb)
    requires t == s.(visible := t.visible) && ErpLedger.Posted(s, l, db)
    ensures ErpLedger.Posted(t, l, db)
  {
  }

  /* ---- The runner ---- */

  /** What an attempt would draw for a date, from the stages it finds. */
  type Draw = (Date, Stages) -> seq<StageEvent>

  ghost predicate Plans(draw: Draw) {
    forall d, stages :: |draw(d, stages)| > 0 && Planned(stages, draw(d, stages))
  }

  /** An attempt at catching up: its draws, and how many durable writes it survives. */
  datatype Attempt = Attempt(draw: Draw, budget: nat)

  /** No date takes more durable writes than this: three claims, what the sources write, three marks
      and the two writes of completion. */
  const MOST_WRITES: nat := 17

  class DailySimulationRunner {
    const v: Venture
    const state: SimulationStateStore
    const crm: CrmRun.CrmRun
    const ops: OpsRun.OpsRun
    const erp: ErpRun.ErpRun

    ghost predicate Wired()
    {
      && Viable(v) && ops.sim == v.sim && erp.p == v.policy
      && forall d :: state.breach(d) == Erp.Breach(v.policy, d)
    }

    /** The history as far as CRM has recorded it. */
    ghost function W(): (w: World)
      requires Wired()
      reads crm
      ensures Sound(w)
    {
      WorldIsSound(v, crm.recorded);
      WorldOf(v, crm.recorded)
    }

    /** CRM has published every date before `d`, and recorded nothing beyond it. */
    ghost predicate CrmStands(d: Date)
      reads state, crm, crm.deltas
    {
      && crm.Valid() && crm.Pending(d)
      && (forall e :: e in crm.recorded ==> e <= d && (e < d ==> e in crm.deltas.published))
      && (IsApplied(state.sources, d, Crm) ==> d in crm.recorded && d in crm.deltas.published)
    }

    /** Ops and ERP can be resumed on date `d` of the history `w`, as far as their marks say. */
    ghost predicate OthersStand(w: World, d: Date, opsApplied: bool, erpApplied: bool)
      requires Sound(w) && d > w.link.ops.baseline
      reads ops, erp
    {
      OpsStands(w, d, ops.Now(), opsApplied) && ErpStands(w, d, Elements(erp.ledger), erp.db, erpApplied)
    }

    /** They have not begun it. */
    ghost predicate Unstarted(w: World, d: Date)
      requires Sound(w) && d > w.link.ops.baseline
      reads ops, erp
    {
      && OpsTrack.OnTrack(OpsContext(w, d), ops.Now(), 0, 0)
      && ErpDone(w, d - 1, Elements(erp.ledger), erp.db)
    }

    /** The sources stand at the date after the watermark, each as far as its source run says. */
    ghost predicate Running()
      requires Wired()
      reads state, ops, erp, crm, crm.deltas
    {
      && state.Valid() && state.baseline == Some(v.baseline) && ops.Valid() && erp.Valid()
      && state.watermark.value >= v.baseline
      && var d := state.watermark.value + 1;
      && CrmStands(d)
      && OthersStand(W(), d, IsApplied(state.sources, d, Ops), IsApplied(state.sources, d, Source.Erp))
      && (d !in crm.recorded ==>
            Unstarted(W(), d) && !IsApplied(state.sources, d, Ops) && !IsApplied(state.sources, d, Source.Erp))
    }

    /** The sources hold what the uninterrupted history through the watermark holds. */
    ghost predicate CaughtUp()
      requires Wired()
      reads state, ops, erp, crm, crm.deltas
    {
      && Running() && state.watermark.value + 1 !in crm.recorded
    }

    constructor (v: Venture, id: StageEvent -> int, seed: Stages)
      requires Viable(v)
      ensures Wired() && CaughtUp() && state.watermark == Some(v.baseline)
      ensures fresh(state) && fresh(ops) && fresh(erp) && fresh(crm) && fresh(crm.deltas)
    {
      hide Sound, OpsStands, ErpStands, ErpDone, OpsTrack.OnTrack, OpsContext, Coherent, DistinctKeys, Viable;
      OpsIdsAreInjective(v);
      this.v := v;
      var control := new SimulationStateStore((d: Date) => Erp.Breach(v.policy, d));
      var _ := control.Initialize(v.baseline);
      state := control;
      crm := new CrmRun.CrmRun(id, seed);
      ops := new OpsRun.OpsRun(v.sim, v.base);
      erp := new ErpRun.ErpRun(v.policy, v.books);
      new;
      Started();
    }

    lemma Started()
      requires Wired() && state.Valid() && ops.Valid() && erp.Valid() && crm.Valid()
      requires state.baseline == state.watermark == Some(v.baseline) && state.sources == map[]
      requires ops.Now() == OpsTrack.Durable({}, v.base) && erp.ledger == [] && erp.db == v.books
      requires crm.recorded == map[]
      ensures CaughtUp()
    {
      hide Sound, OpsStands, ErpStands, ErpDone, OpsTrack.OnTrack, OpsTrack.Ready, OpsContext, Coherent, Viable;
      OpsStarts(W());
      ErpStarts(W());
      assert Elements(erp.ledger) == {};
    }

    /* The writes to the control state, between those of the sources. */

    /** Claiming changes no mark. */
    method Claim(d: Date)
      requires Wired() && Running() && d == state.watermark.value + 1
      modifies state
      ensures Running() && state.watermark == old(state.watermark) && d in state.sources
      ensures forall s :: IsApplied(state.sources, d, s) == old(IsApplied(state.sources, d, s))
    {
      hide Sound, OthersStand, Unstarted, Coherent, Viable, Planned, W;
      hide CrmRun.Trail, Tracked;
      RunsHaveRows(d);
      var _ := state.ClaimRun(d);
      RunsHaveRows(d);
    }

    method MarkCrm(d: Date, records: nat)
      requires Wired() && Running() && d == state.watermark.value + 1 && d in state.sources
      requires d in crm.recorded && d in crm.deltas.published
      modifies state
      ensures Running() && state.watermark == old(state.watermark) && IsApplied(state.sources, d, Crm)
    {
      hide Sound, OthersStand, Unstarted, Coherent, Viable, Planned, W;
      hide CrmRun.Trail, Tracked;
      var _ := state.MarkSourceApplied(d, Crm, records, records);
    }

    method MarkOps(d: Date, records: nat, applied: nat)
      requires Wired() && Running() && d == state.watermark.value + 1 && IsApplied(state.sources, d, Crm)
      requires OpsStands(W(), d, ops.Now(), true)
      modifies state
      ensures Running() && state.watermark == old(state.watermark)
      ensures IsApplied(state.sources, d, Crm) && IsApplied(state.sources, d, Ops)
    {
      hide Sound, OpsStands, ErpStands, OpsContext, Coherent, Viable, Planned, OpsTrack.OnTrack, ErpDone, W;
      hide CrmRun.Trail, Tracked;
      var _ := state.MarkSourceApplied(d, Ops, records, applied);
    }

    method MarkErp(d: Date, records: nat, applied: nat)
      requires Wired() && Running() && d == state.watermark.value + 1
      requires IsApplied(state.sources, d, Crm) && IsApplied(state.sources, d, Ops)
      requires ErpStands(W(), d, Elements(erp.ledger), erp.db, true)
      modifies state
      ensures Running() && state.watermark == old(state.watermark) && AllApplied(state.sources, d)
    {
      hide Sound, OpsStands, ErpStands, OpsContext, Coherent, Viable, Planned, OpsTrack.OnTrack, ErpDone, W;
      hide CrmRun.Trail, Tracked;
      var _ := state.MarkSourceApplied(d, Source.Erp, records, applied);
    }

    /** Close the run and advance the watermark; a crash between the two leaves a closed run that the
        next attempt completes. */
    method Complete(d: Date, budget: nat) returns (crashed: bool)
      requires Wired() && Running() && d == state.watermark.value + 1 && AllApplied(state.sources, d)
      modifies state
      ensures Running() && (crashed <==> budget < 2)
      ensures if crashed then state.watermark == old(state.watermark) else state.watermark == Some(d) && CaughtUp()
    {
      hide Sound, OpsStands, ErpStands, OpsContext, Coherent, Viable, Planned, OpsTrack.OnTrack, ErpDone, W;
      hide CrmRun.Trail, Tracked;
      RunsHaveRows(d);
      NothingAhead(d + 1);
      var done := state.CompleteRun(d, budget);
      crashed := !done.value;
      if !crashed { DateIsOver(d); }
    }

    /** Claim, record what is drawn unless something is on record, publish, mark. */
    method RunCrm(d: Date, drawn: seq<StageEvent>, budget: nat) returns (crashed: bool, left: nat)
      requires Wired() && Running() && d == state.watermark.value + 1
      requires |drawn| > 0 && Planned(crm.deltas.stages, drawn)
      modifies state, crm`recorded, crm.deltas
      ensures Running() && state.watermark == old(state.watermark)
      ensures left <= budget <= left + 4 && (crashed ==> budget < 4)
      ensures !crashed ==> IsApplied(state.sources, d, Crm)
    {
      hide Running, Viable, Planned;
      if budget == 0 { return true, 0; }
      Claim(d);
      var outcome: CrmRun.Outcome;
      outcome, left := PublishDrawn(d, drawn, budget - 1);
      if outcome.Crashed? || left == 0 { return true, 0; }
      MarkCrm(d, outcome.records);
      crashed, left := false, left - 1;
    }

    method PublishDrawn(d: Date, drawn: seq<StageEvent>, budget: nat) returns (outcome: CrmRun.Outcome, left: nat)
      requires Wired() && Running() && d == state.watermark.value + 1
      requires |drawn| > 0 && Planned(crm.deltas.stages, drawn)
      modifies crm`recorded, crm.deltas
      ensures Running() && left <= budget <= left + 2
      ensures outcome.Crashed? || outcome.Finished?
      ensures if outcome.Crashed? then budget < 2 else d in crm.recorded && d in crm.deltas.published
    {
      hide Sound, Coherent, Viable, Planned, WorldOf, OthersStand, Unstarted, CrmRun.Trail, Tracked;
      hide CrmRun.CrmRun.Brought;
      ghost var was, w := crm.recorded, W();
      outcome, left := crm.Run(d, drawn, budget);
      if crm.recorded != was { StillStands(w, d, was, drawn); }
    }

    /** Ops and ERP stand at the start of a date whether CRM has just recorded it or not. */
    lemma StillStands(w: World, d: Date, was: map<Date, seq<StageEvent>>, drawn: seq<StageEvent>)
      requires Wired() && d > v.baseline && d !in was && crm.recorded == was[d := drawn]
      requires w == WorldOf(v, was) && Sound(w) && Unstarted(w, d)
      ensures OthersStand(W(), d, false, false)
    {
      hide Sound, ErpStands, OpsContext, Viable, OpsTrack.OnTrack, ErpDone;
      assert W() == WorldOf(v, was[d := drawn]);
      OpsStillStarts(v, was, d, drawn, ops.Now());
      ErpIsStillDone(v, was, d, drawn, Elements(erp.ledger), erp.db);
      ErpNextDate(W(), d - 1, Elements(erp.ledger), erp.db);
    }

    lemma NothingAhead(d: Date)
      requires state.Valid() && d > state.watermark.value + 1
      ensures d !in state.sources
    {
      assert d in state.runs.Keys <==> d in state.sources.Keys;
    }

    lemma RunsHaveRows(d: Date)
      requires state.Valid()
      ensures d in state.runs <==> d in state.sources
    {
      assert d in state.runs.Keys <==> d in state.sources.Keys;
    }

    method RunOps(d: Date, budget: nat) returns (crashed: bool, left: nat)
      requires Wired() && Running() && d == state.watermark.value + 1 && IsApplied(state.sources, d, Crm)
      modifies state, ops
      ensures Running() && state.watermark == old(state.watermark)
      ensures left <= budget <= left + 7 && (crashed ==> budget < 7)
      ensures !crashed ==> IsApplied(state.sources, d, Crm) && IsApplied(state.sources, d, Ops)
    {
      hide Running, Viable, OpsStands, W;
      if budget == 0 { return true, 0; }
      Claim(d);
      var outcome: OpsRun.Outcome;
      outcome, left := ResumeOps(d, budget - 1);
      if outcome.Crashed? || left == 0 { return true, 0; }
      MarkOps(d, outcome.records, outcome.applied);
      crashed, left := false, left - 1;
    }

    method ResumeOps(d: Date, budget: nat) returns (outcome: OpsRun.Outcome, left: nat)
      requires Wired() && Running() && d == state.watermark.value + 1 && IsApplied(state.sources, d, Crm)
      modifies ops
      ensures Running() && left <= budget <= left + 5
      ensures outcome.Crashed? || outcome.Finished?
      ensures if outcome.Crashed? then budget < 5 else OpsStands(W(), d, ops.Now(), true)
    {
      hide Sound, ErpStands, OpsContext, Coherent, OpsTrack.OnTrack, OpsStands, ErpDone, W;
      hide Viable, CrmRun.Trail, Tracked, Planned;
      var crmState := state.SourceRunState(d, Crm);
      outcome, left := MakeOrders(d, crmState.value.Applied?, budget, IsApplied(state.sources, d, Ops));
    }

    /** Read the CRM events on record, then run the date. */
    method MakeOrders(d: Date, crmApplied: bool, budget: nat, ghost before: bool)
      returns (outcome: OpsRun.Outcome, left: nat)
      requires Wired() && ops.Valid() && d > v.baseline && crmApplied
      requires OpsStands(W(), d, ops.Now(), before)
      modifies ops
      ensures ops.Valid() && OpsStands(W(), d, ops.Now(), before)
      ensures outcome.Finished? ==> OpsStands(W(), d, ops.Now(), true)
      ensures outcome.Finished? || outcome.Crashed?
      ensures left <= budget <= left + 5 && (outcome.Crashed? ==> budget < 5)
    {
      hide Sound, OpsContext, OpsTrack.OnTrack, OpsRun.Recoverable, OpsTrack.Ready, OpsRun.Sound, Viable;
      hide OpsFromCrm.CrmThrough, OpsTrack.Committed, OpsTrack.OrdersApplied, OpsTrack.Plan, OpsDay.DayOrders;
      FeedIsSound(v);
      ghost var c := OpsContext(W(), d);
      var events := OpsFromCrm.ReadCrm(v.feed, crm.recorded, d);
      outcome, left := ops.Run(d, events, crmApplied, budget, c);
    }

    /** ERP's portion of a date, which also completes it. */
    method RunErp(d: Date, budget: nat) returns (crashed: bool, left: nat)
      requires Wired() && Running() && d == state.watermark.value + 1
      requires IsApplied(state.sources, d, Crm) && IsApplied(state.sources, d, Ops)
      modifies state, erp
      ensures Running() && left <= budget <= left + 6
      ensures crashed ==> budget < 6 && state.watermark == old(state.watermark)
      ensures !crashed ==> state.watermark == Some(d) && CaughtUp()
    {
      hide Running, CaughtUp, Viable, ErpStands, W;
      if budget == 0 { return true, 0; }
      Claim(d);
      var outcome: ErpRun.Outcome;
      outcome, left := ResumeErp(d, budget - 1);
      if outcome.Crashed? || left == 0 { return true, 0; }
      MarkErp(d, outcome.records, outcome.applied);
      crashed := Complete(d, left - 1);
      left := if crashed then 0 else left - 3;
    }

    method ResumeErp(d: Date, budget: nat) returns (outcome: ErpRun.Outcome, left: nat)
      requires Wired() && Running() && d == state.watermark.value + 1
      requires IsApplied(state.sources, d, Crm) && IsApplied(state.sources, d, Ops)
      modifies erp
      ensures Running() && left <= budget <= left + 2
      ensures outcome.Crashed? || outcome.Finished?
      ensures if outcome.Crashed? then budget < 2 else ErpStands(W(), d, Elements(erp.ledger), erp.db, true)
    {
      hide Sound, OpsContext, Coherent, OpsStands, ErpDone, Postings, ErpStands, OpsTrack.OnTrack;
      hide Viable, CrmRun.Trail, Tracked, Planned;
      var opsState := state.SourceRunState(d, Ops);
      outcome, left := PostInvoices(d, opsState.value.Applied?, budget, IsApplied(state.sources, d, Source.Erp));
    }

    lemma DateIsOver(d: Date)
      requires Wired() && state.Valid() && ops.Valid() && erp.Valid() && d > v.baseline
      requires state.baseline == Some(v.baseline) && state.watermark == Some(d)
      requires crm.Valid() && d in crm.deltas.published
      requires forall e :: e in crm.recorded ==> e <= d && (e < d ==> e in crm.deltas.published)
      requires OpsStands(W(), d, ops.Now(), true) && ErpStands(W(), d, Elements(erp.ledger), erp.db, true)
      requires d + 1 !in state.sources
      ensures CaughtUp()
    {
      hide Sound, OpsContext, Coherent, OpsStands, ErpDone, Postings, ErpStands, OpsTrack.OnTrack, OpsTrack.Ready;
      hide Viable, CrmRun.Trail, Tracked, Planned;
      OpsNextDate(W(), d, ops.Now());
      ErpIsDone(W(), d, Elements(erp.ledger), erp.db);
      ErpNextDate(W(), d, Elements(erp.ledger), erp.db);
    }

    method RunDate(d: Date, draw: Draw, budget: nat) returns (crashed: bool, left: nat)
      requires Wired() && Running() && d == state.watermark.value + 1 && Plans(draw)
      modifies state, ops, erp, crm`recorded, crm.deltas
      ensures Running() && left <= budget <= left + MOST_WRITES && (crashed ==> budget < MOST_WRITES)
      ensures if crashed then state.watermark == old(state.watermark) else state.watermark == Some(d) && CaughtUp()
    {
      hide Sound, OpsContext, Coherent, OpsStands, ErpDone, ErpStands, Running, CaughtUp, Viable, Planned;
      crashed, left := RunCrm(d, draw(d, crm.deltas.stages), budget);
      if crashed { return; }
      crashed, left := RunOps(d, left);
      if crashed { return; }
      crashed, left := RunErp(d, left);
    }

    /** Every missing date in order, until all are done or the process dies. */
    method RunThrough(through: Date, attempt: Attempt) returns (completed: seq<Date>, crashed: bool)
      requires Wired() && Running() && Plans(attempt.draw)
      modifies state, ops, erp, crm`recorded, crm.deltas
      ensures Running() && state.watermark.Some?
      ensures attempt.budget >= MOST_WRITES * (through - old(state.watermark).value) ==> !crashed
      ensures |completed| == state.watermark.value - old(state.watermark).value
      ensures forall i :: 0 <= i < |completed| ==> completed[i] == old(state.watermark).value + 1 + i
      ensures crashed ==> state.watermark.value < through
      ensures !crashed ==>
        state.watermark.value == if through <= old(state.watermark).value then old(state.watermark).value else through
      ensures !crashed && (old(CaughtUp()) || through > old(state.watermark).value) ==> CaughtUp()
    {
      hide Sound, OpsContext, Coherent, OpsStands, ErpDone, ErpStands, OpsTrack.OnTrack, Running, CaughtUp, Viable;
      hide Plans;
      Initialized();
      ghost var first := state.watermark.value;
      var due := state.DueDates(through);
      completed, crashed := [], false;
      var left: nat := attempt.budget;
      for i := 0 to |due|
        invariant Running() && state.watermark == Some(first + i)
        invariant |completed| == i && forall k :: 0 <= k < i ==> completed[k] == first + 1 + k
        invariant i > 0 || old(CaughtUp()) ==> CaughtUp()
        invariant left + MOST_WRITES * i >= attempt.budget
      {
        crashed, left := RunDate(due[i], attempt.draw, left);
        if crashed { return; }
        completed := completed + [due[i]];
      }
    }

    lemma Initialized()
      requires Wired() && Running()
      ensures state.watermark.Some?
    {
    }

    /** After any number of attempts that draw anything and crash anywhere, one that does not crash
        brings every source to where a history without crashes has it. */
    method CatchUp(through: Date, attempts: seq<Attempt>, last: Draw)
      requires Wired() && Running() && (through > state.watermark.value || CaughtUp())
      requires Plans(last) && forall i :: 0 <= i < |attempts| ==> Plans(attempts[i].draw)
      modifies state, ops, erp, crm`recorded, crm.deltas
      ensures CaughtUp()
      ensures state.watermark.value ==
        if through <= old(state.watermark).value then old(state.watermark).value else through
    {
      hide Sound, OpsContext, Coherent, OpsStands, ErpDone, ErpStands, OpsTrack.OnTrack, Running, CaughtUp, Viable;
      hide Plans;
      Initialized();
      ghost var first := state.watermark.value;
      for i := 0 to |attempts|
        invariant Running() && state.watermark.Some? && first <= state.watermark.value
        invariant state.watermark.value < through
            || (CaughtUp() && state.watermark.value == if through <= first then first else through)
      {
        var _, _ := RunThrough(through, attempts[i]);
      }
      var missing := if through <= state.watermark.value then 0 else through - state.watermark.value;
      var _, _ := RunThrough(through, Attempt(last, MOST_WRITES * missing));
    }

    /** What being caught up says of the sources. */
    lemma CaughtUpSources()
      requires Wired() && CaughtUp()
      ensures var d := state.watermark.value;
        && OpsRun.Sound(W().link.ops) && ErpLedger.Sound(Postings(W()))
        && Elements(ops.ledger) == OpsRun.Through(W().link.ops, d).ledger
        && OpsReplay.SameButLineIds(ops.db, OpsRun.Through(W().link.ops, d).db)
        && Elements(erp.ledger) == ErpLedger.Through(Postings(W()), d)
        && ErpLedger.Scheduled(Postings(W()), d, Elements(erp.ledger))
        && ErpLedger.Posted(Postings(W()), Elements(erp.ledger), erp.db)
    {
      OpsIsSound(W());
      PostingsAreSound(W());
      hide Sound, Coherent, OpsStands, ErpStands, OpsTrack.OnTrack, OpsTrack.Ready, OpsRun.Sound, ErpLedger.Sound;
      hide ErpLedger.Posted, ErpLedger.Scheduled, ErpLedger.Consistent, OpsReplay.SameButLineIds, OpsRun.DateContext;
      hide Viable, CrmRun.Trail, Tracked, Planned;
      OpsRun.NextIsThrough(W().link.ops, state.watermark.value, ops.Now());
    }

    /** And of every deal: its history is a path along the stages, and it has at most one order, that
        one shipment and one invoice at most, and that one posting at most. */
    lemma OneOfEach()
      requires Wired() && CaughtUp()
      ensures Tracked(crm.deltas.seed, crm.deltas.stages, crm.deltas.history)
      ensures OpsOneOrder.OneOrderEach(v.base, Elements(ops.ledger))
      ensures OneShipmentEach(Elements(ops.ledger)) && OneInvoiceEach(Elements(ops.ledger))
      ensures OnePostingEach(Elements(erp.ledger))
    {
      hide Sound, Coherent, OthersStand, Unstarted, OpsRun.Sound, ErpLedger.Sound, Viable, Tracked, CrmRun.Trail;
      hide ErpLedger.Posted, ErpLedger.Scheduled, OpsReplay.SameButLineIds, OpsTables.Reflects, OpsTables.Consistent;
      hide ErpLedger.Consistent, OpsOneOrder.OneOrderEach, OneShipmentEach, OneInvoiceEach, OnePostingEach;
      CaughtUpSources();
      FeedIsSound(v);
      var d := state.watermark.value;
      forall e | e in crm.recorded.Keys ensures e in crm.deltas.published.Keys { assert e in crm.recorded; }
      OpsFromCrm.OneOrderPerDeal(v.feed, crm.deltas.seed, crm.deltas.stages, crm.deltas.history, crm.recorded,
        crm.deltas.published.Keys, W().link.ops, d);
      ConsistentIsOneOfEach(v.base, Elements(ops.ledger));
      ConsistentPostsOnce(Postings(W()), Elements(erp.ledger));
    }

    /** And of time and money: every event of the Ops ledger follows its cause to the day, what should follow
        an event has followed exactly when its day has come, and every posting's row records its invoice,
        converted at the rates of its date. */
    lemma AllInTime()
      requires Wired() && CaughtUp()
      ensures var s := Elements(ops.ledger);
        && (forall e :: e in s && !e.OrderCreated? ==> OpsTiming.InTime(v.sim, s, e))
        && (forall c, k :: c in s && OpsTiming.Awaits(v.sim, c, k) ==>
              (OpsTiming.IsFollowed(s, c, k) <==> c.date + OpsTiming.Wait(v.sim, c, k) <= state.watermark.value))
      ensures forall e :: e in Elements(erp.ledger) ==>
        e.postingId in erp.db.postings && ErpAmounts.Records(v.books.books, e, erp.db.postings[e.postingId])
    {
      CaughtUpSources();
      var d, s := state.watermark.value, Elements(ops.ledger);
      hide Sound, Coherent, OthersStand, Unstarted, OpsRun.Sound, ErpLedger.Sound, Viable, Tracked, CrmRun.Trail;
      hide ErpLedger.Posted, ErpLedger.Scheduled, OpsRun.Through, ErpLedger.Through, OpsReplay.SameButLineIds;
      hide OpsTiming.InTime, OpsTiming.IsFollowed, OpsTiming.Awaits, OpsTiming.Wait, ErpAmounts.Records;
      forall e | e in s && !e.OrderCreated? ensures OpsTiming.InTime(v.sim, s, e) {
        OpsTiming.EveryEventIsInTime(W().link.ops, d, e);
      }
      forall c, k | c in s && OpsTiming.Awaits(v.sim, c, k)
        ensures OpsTiming.IsFollowed(s, c, k) <==> c.date + OpsTiming.Wait(v.sim, c, k) <= d
      {
        OpsTiming.NothingIsMissed(W().link.ops, d, c, k);
      }
      forall e | e in Elements(erp.ledger)
        ensures e.postingId in erp.db.postings && ErpAmounts.Records(v.books.books, e, erp.db.postings[e.postingId])
      {
        ErpAmounts.EveryPostingIsRecorded(Postings(W()), Elements(erp.ledger), erp.db, e);
      }
    }

    /** Read the hand-off, then plan, record and apply the date's postings. */
    method PostInvoices(d: Date, opsApplied: bool, budget: nat, ghost before: bool)
      returns (outcome: ErpRun.Outcome, left: nat)
      requires Wired() && erp.Valid() && d > v.baseline && opsApplied
      requires OpsStands(W(), d, ops.Now(), true) && ErpStands(W(), d, Elements(erp.ledger), erp.db, before)
      modifies erp
      ensures erp.Valid() && ErpStands(W(), d, Elements(erp.ledger), erp.db, before)
      ensures outcome.Finished? ==> ErpStands(W(), d, Elements(erp.ledger), erp.db, true)
      ensures outcome.Finished? || outcome.Crashed?
      ensures left <= budget <= left + 2 && (outcome.Crashed? ==> budget < 2)
    {
      hide Sound, OpsContext, OpsStands, Postings, ErpLedger.Posted, ErpLedger.Sound, ErpRun.Recoverable,
          ErpRun.OnTrack, Viable;
      hide OpsHandoff.IssuedInvoices, OpsHandoff.Visible, ErpLedger.Through, DistinctKeys;
      ghost var w := W();
      PostingsAreSound(w);
      PostingsSee(w, d);
      InvoicesAreVisible(w, d, ops.Now());
      if before { DoneIsOnTrack(w, d, Elements(erp.ledger), erp.db); }
      OpsHandoff.SameIssued(LinkOf(v, map[]), w.link, ops.db);
      var invoices := ReadInvoices(LinkOf(v, map[]), ops.db);
      outcome, left := erp.Run(d, invoices, opsApplied, budget, Postings(w));
      if before { OnTrackIsDone(w, d, Elements(erp.ledger), erp.db); }
    }
  }

  ghost predicate OneShipmentEach(s: set<Event>) {
    forall a, b :: a in s && b in s && a.ShipmentCreated? && b.ShipmentCreated? && a.orderId == b.orderId ==> a == b
  }

  ghost predicate OneInvoiceEach(s: set<Event>) {
    forall a, b :: a in s && b in s && a.InvoiceCreated? && b.InvoiceCreated? && a.orderId == b.orderId ==> a == b
  }

  ghost predicate OnePostingEach(l: set<Erp.Posting>) {
    forall a, b :: a in l && b in l && a.invoice.order == b.invoice.order ==> a == b
  }

  lemma ConsistentIsOneOfEach(base: OpsTables.OpsDb, s: set<Event>)
    requires OpsTables.Consistent(base, s)
    ensures OneShipmentEach(s) && OneInvoiceEach(s)
  {
  }

  lemma ConsistentPostsOnce(s: ErpLedger.Setting, l: set<Erp.Posting>)
    requires ErpLedger.Consistent(s, l)
    ensures OnePostingEach(l)
  {
  }

  lemma DoneIsOnTrack(w: World, d: Date, ledger: set<Erp.Posting>, db: Erp.ErpDb)
    requires Sound(w) && d > w.link.ops.baseline && ErpDone(w, d, ledger, db)
    ensures ErpLedger.Sound(Postings(w)) && ErpRun.OnTrack(Postings(w), d, ledger, db, true, true)
  {
    PostingsAreSound(w);
    hide Sound, ErpLedger.Posted, ErpLedger.Sound, Postings, ErpRun.Planned, ErpLedger.Consistent, ErpLedger.Scheduled;
    ErpRun.DayFacts(Postings(w), d);
  }

  lemma OnTrackIsDone(w: World, d: Date, ledger: set<Erp.Posting>, db: Erp.ErpDb)
    requires Sound(w) && d > w.link.ops.baseline
    requires ErpLedger.Sound(Postings(w)) && ErpRun.OnTrack(Postings(w), d, ledger, db, true, true)
    ensures ErpDone(w, d, ledger, db)
  {
    PostingsAreSound(w);
    hide Sound, ErpLedger.Posted, ErpLedger.Sound, Postings, ErpRun.Planned, ErpLedger.Consistent, ErpLedger.Scheduled;
    ErpRun.DayFacts(Postings(w), d);
  }

  lemma ErpIsDone(w: World, d: Date, ledger: set<Erp.Posting>, db: Erp.ErpDb)
    requires Sound(w) && d > w.link.ops.baseline && ErpStands(w, d, ledger, db, true)
    ensures ErpDone(w, d, ledger, db)
  {
    hide Sound, ErpDone;
  }

  function IssuedAmong(k: OpsHandoff.Link, db: OpsTables.OpsDb, orders: set<int>): set<Erp.Invoice> {
    set o | o in orders && OpsHandoff.Shown(k, db, o) :: OpsHandoff.InvoiceOf(k, db, o)
  }

  lemma IssueOneMore(k: OpsHandoff.Link, db: OpsTables.OpsDb, orders: set<int>, o: int)
    requires OpsHandoff.Shown(k, db, o) && o !in orders
    ensures IssuedAmong(k, db, orders + {o}) == IssuedAmong(k, db, orders) + {OpsHandoff.InvoiceOf(k, db, o)}
    ensures OpsHandoff.InvoiceOf(k, db, o) !in IssuedAmong(k, db, orders)
  {
  }

  /** The hand-off query, in invoice id order. */
  method ReadInvoices(k: OpsHandoff.Link, db: OpsTables.OpsDb) returns (invoices: seq<Erp.Invoice>)
    requires DistinctKeys(OpsHandoff.IssuedInvoices(k, db), Erp.InvoiceId)
    ensures StrictlySortedBy(invoices, Erp.InvoiceId)
    ensures Elements(invoices) == OpsHandoff.IssuedInvoices(k, db)
  {
    hide OpsHandoff.InvoiceOf, OpsHandoff.Shown, IssuedAmong, OpsHandoff.IssuedInvoices;
    hide DistinctKeys, StrictlySortedBy, Sort;
    NoneIssued(k, db);
    var orders := set o | o in db.invoices && OpsHandoff.Shown(k, db, o);
    var listed: seq<Erp.Invoice> := [];
    ghost var done: set<int> := {};
    while orders != {}
      invariant forall o :: o in orders ==> OpsHandoff.Shown(k, db, o)
      invariant done !! orders && done + orders == set o | o in db.invoices && OpsHandoff.Shown(k, db, o)
      invariant Elements(listed) == IssuedAmong(k, db, done) && NoRepeats(listed)
      decreases |orders|
    {
      var o :| o in orders;
      IssueOneMore(k, db, done, o);
      AppendKeepsNoRepeats(listed, OpsHandoff.InvoiceOf(k, db, o));
      listed := listed + [OpsHandoff.InvoiceOf(k, db, o)];
      orders, done := orders - {o}, done + {o};
    }
    AllIssued(k, db, done);
    SortedListing(listed);
    invoices := Sort(listed, Erp.InvoiceId);
  }

  lemma SortedListing(listed: seq<Erp.Invoice>)
    requires NoRepeats(listed) && DistinctKeys(Elements(listed), Erp.InvoiceId)
    ensures StrictlySortedBy(Sort(listed, Erp.InvoiceId), Erp.InvoiceId)
    ensures Elements(Sort(listed, Erp.InvoiceId)) == Elements(listed)
  {
    SortOfDistinctIsStrict(listed, Erp.InvoiceId);
    SortIsSortedPermutation(listed, Erp.InvoiceId);
  }

  lemma NoneIssued(k: OpsHandoff.Link, db: OpsTables.OpsDb)
    ensures IssuedAmong(k, db, {}) == {}
  {
  }

  lemma AllIssued(k: OpsHandoff.Link, db: OpsTables.OpsDb, orders: set<int>)
    requires orders == set o | o in db.invoices && OpsHandoff.Shown(k, db, o)
    ensures IssuedAmong(k, db, orders) == OpsHandoff.IssuedInvoices(k, db)
  {
  }

  lemma AppendKeepsNoRepeats<T>(s: seq<T>, x: T)
    requires NoRepeats(s) && x !in Elements(s)
    ensures NoRepeats(s + [x]) && Elements(s + [x]) == Elements(s) + {x}
  {
    forall i | 0 <= i < |s| ensures s[i] != x { assert s[i] in Elements(s); }
  }

  lemma PostingsSee(w: World, d: Date)
    requires Sound(w) && d > w.link.ops.baseline
    ensures Postings(w).visible(d) == OpsHandoff.Visible(w.link, d)
    ensures DistinctKeys(OpsHandoff.Visible(w.link, d), Erp.InvoiceId)
  {
    OpsHandoff.InvoicesAreDistinct(w.link, d);
    hide OpsHandoff.Visible, DistinctKeys, OpsHandoff.IdsSound, OpsRun.Sound;
  }

  lemma FeedIsSound(v: Venture)
    requires Viable(v)
    ensures OpsFromCrm.Sound(v.feed)
  {
  }

  lemma OpsIdsAreInjective(v: Venture)
    requires Viable(v)
    ensures Injective(v.sim)
  {
  }

  lemma OpsStarts(w: World)
    requires Sound(w)
    ensures var d := w.link.ops.baseline + 1; var now := OpsTrack.Durable({}, w.link.ops.base);
      OpsStands(w, d, now, false) && OpsTrack.OnTrack(OpsContext(w, d), now, 0, 0)
  {
    hide Sound, OpsTrack.OnTrack, OpsTrack.Ready, OpsRun.DateContext, OpsRun.Sound;
    OpsIsSound(w);
    OpsRun.FirstDateStarts(w.link.ops);
  }

  lemma ErpStarts(w: World)
    requires Sound(w)
    ensures ErpDone(w, w.link.ops.baseline, {}, w.books)
    ensures ErpStands(w, w.link.ops.baseline + 1, {}, w.books, false)
  {
    hide Sound, ErpStands, ErpDone;
    NothingPosted(w);
    ErpNextDate(w, w.link.ops.baseline, {}, w.books);
  }

  lemma NothingPosted(w: World)
    requires Sound(w)
    ensures ErpDone(w, w.link.ops.baseline, {}, w.books)
  {
    PostingsAreSound(w);
    assert ErpLedger.EventIds(w.policy, {}) == {} && ErpLedger.PostingIds({}) == {};
    hide Sound, OpsHandoff.Sound, OpsHandoff.Bookable, ErpLedger.Sound;
  }
}
