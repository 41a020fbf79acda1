/** A runner's disappearance is believed only with history: what must have happened in a run before a reconcile pass
    tears down a machine that is up. */
module Evidence {
  import opened Types
  import opened Instances
  import opened Worlds
  import opened Launches
  import opened Passes
  import opened System
  import opened Accounting
  import Lifecycle
  import Reaper

  predicate Marked(r: Row) { r.readyAt.Some? || r.claimedAt.Some? }

  /** Some forge's listing contained the registration of row `n`. */
  ghost predicate Sighted(w: World, n: string)
    requires n in w.rows
  {
    exists f: nat :: Sighting(n, Rid(f, w.rows[n].runnerId)) in w.past.seen
  }

  /** Only rows whose registration was seen carry a mark of having been ready or busy. */
  ghost predicate MarksSeen(w: World) {
    forall n :: n in w.rows && Marked(w.rows[n]) ==> w.rows[n].runnerId != "" && Sighted(w, n)
  }

  predicate FlightUnmarked(pass: Option<ScalePass>) {
    pass.Some? && pass.value.flight.Some? ==> !Marked(pass.value.flight.value.row)
  }

  ghost predicate SeenInv(s: Sys) {
    MarksSeen(s.w) && FlightUnmarked(s.pass)
  }

  // ---- the advance half ----

  /** The rows whose registration the reading has are on record as seen. */
  ghost predicate Recorded(w: World, poolId: nat, snap: Lifecycle.Snapshot) {
    forall n :: LiveIn(w, poolId, n) && snap.Has(w.rows[n].runnerId) ==> Sighted(w, n)
  }

  lemma AdvanceOneMarks(w: World, poolId: nat, pool: Pool, snap: Lifecycle.Snapshot, v: AdvanceVisit)
    requires MarksSeen(w) && Recorded(w, poolId, snap) && v.name in w.rows && w.rows[v.name].poolId == poolId
    ensures var w' := AdvanceOne(w, pool, snap, v); MarksSeen(w') && Recorded(w', poolId, snap)
  {
    AdvanceOneFrame(w, pool, snap, v);
    if LiveRow(w, v.name) {
      var r := w.rows[v.name];
      Lifecycle.MarksNeedEvidence(r, pool, MachineFor(w, pool, r), snap, w.now, v.e);
      Lifecycle.AdvanceIsSound(r, pool, MachineFor(w, pool, r), snap, w.now, v.e);
    }
  }

  lemma {:induction false} AdvanceAllMarks(w: World, poolId: nat, pool: Pool, snap: Lifecycle.Snapshot,
                                           vs: seq<AdvanceVisit>)
    requires MarksSeen(w) && Recorded(w, poolId, snap) && RowsOfPool(w, poolId, vs)
    ensures var w' := AdvanceAll(w, pool, snap, vs); MarksSeen(w') && Recorded(w', poolId, snap)
  {
    if vs != [] {
      var before, last := vs[..|vs| - 1], vs[|vs| - 1];
      assert last in vs && forall v :: v in before ==> v in vs;
      AdvanceAllMarks(w, poolId, pool, snap, before);
      AdvanceAllFrame(w, pool, snap, before);
      AdvanceOneMarks(AdvanceAll(w, pool, snap, before), poolId, pool, snap, last);
    }
  }

  lemma AdvanceMarks(w: World, poolId: nat, listed: bool, vs: seq<AdvanceVisit>)
    requires MarksSeen(w) && poolId in w.pools && RowsOfPool(w, poolId, vs)
    ensures MarksSeen(AdvancePool(w, poolId, listed, vs))
  {
    var snap := SnapshotOf(w, w.pools[poolId].forgeId, listed);
    var w1 := Lifecycle.Witness(w, poolId, snap);
    forall n | n in w1.rows && Sighted(w, n) ensures Sighted(w1, n) {
      var f: nat :| Sighting(n, Rid(f, w.rows[n].runnerId)) in w.past.seen;
      assert Sighting(n, Rid(f, w1.rows[n].runnerId)) in w1.past.seen;
    }
    forall n | LiveIn(w1, poolId, n) && snap.Has(w1.rows[n].runnerId) ensures Sighted(w1, n) {
      assert Sighting(n, Rid(w.pools[poolId].forgeId, w1.rows[n].runnerId)) in w1.past.seen;
    }
    AdvanceAllMarks(w1, poolId, w.pools[poolId], snap, vs);
  }

  // ---- every step, every run ----

  lemma OperatorMarks(w: World, a: Operator)
    requires MarksSeen(w)
    ensures MarksSeen(OperatorEffect(w, a))
  {
    if a.DestroyMachine? { DestroyedMarks(w, a.name, a.op); }
  }

  lemma DestroyedMarks(w: World, name: string, e: OperatorEnv)
    requires MarksSeen(w)
    ensures MarksSeen(DestroyInstance(w, name, e))
  {
    DestroyInstanceFrame(w, name, e);
    if LiveRow(w, name) {
      var r := w.rows[name];
      Lifecycle.DestroyKeepsMarks(r, r, e.forge, w.now, e.destroy);
      Lifecycle.DestroyOutcome(r, r, e.forge, w.now, e.destroy);
    }
  }

  lemma ProceedMarks(w: World, p: ScalePass, e: LaunchEnv)
    requires MarksSeen(w) && p.flight.Some? && !Marked(p.flight.value.row)
    ensures SeenInv(AfterProceed(w, p, e))
  {
  }

  lemma BeginMarks(w: World, p: ScalePass, name: string, e: LaunchEnv)
    requires MarksSeen(w) && p.queue != [] && p.poolId in w.pools
    ensures SeenInv(AfterBegin(w, p, name, e))
  {
  }

  lemma ControlMarks(s: Sys, c: Control)
    requires SeenInv(s) && MayControl(s, c)
    ensures SeenInv(AfterControl(s, c))
  {
    match c
    case Advance(poolId, listed, visits) =>
      VisitsAreOfPool(s.w, poolId, visits);
      AdvanceMarks(s.w, poolId, listed, visits);
    case Decide(_, _, _, _) =>
    case BeginLaunch(name, e) => BeginMarks(s.w, s.pass.value, name, e);
    case Proceed(e) => ProceedMarks(s.w, s.pass.value, e);
    case Crash =>
  }

  lemma SweptMarks(w: World, w': World)
    requires MarksSeen(w) && Reaper.Swept(w, w')
    ensures MarksSeen(w')
  {
  }

  lemma StepMarks(s: Sys, step: Step)
    requires SysInv(s) && SeenInv(s) && Enabled(s, step)
    ensures SeenInv(After(s, step))
  {
    match step
    case Env(o) => OutsideMarks(s.w, o);
    case Ctl(c) => ControlMarks(s, c);
    case Sweeping(v) =>
      SweepEffectKeeps(s, v);
      SweptMarks(s.w, SweepEffect(s.w, v));
    case Op(a) => OperatorMarks(s.w, a);
  }

  lemma OutsideMarks(w: World, o: Outside)
    requires MarksSeen(w)
    ensures MarksSeen(OutsideEffect(w, o))
  {
    SameRowsMarks(w, OutsideEffect(w, o));
  }

  /** The marks are about rows and sightings alone. */
  lemma SameRowsMarks(w: World, w': World)
    requires MarksSeen(w) && w'.rows == w.rows && w'.past.seen == w.past.seen
    ensures MarksSeen(w')
  {
    forall n | n in w'.rows && Marked(w'.rows[n]) ensures Sighted(w', n) {
      var f: nat :| Sighting(n, Rid(f, w.rows[n].runnerId)) in w.past.seen;
      assert Sighting(n, Rid(f, w'.rows[n].runnerId)) in w'.past.seen;
    }
  }

  lemma {:induction false} RunMarks(ss: seq<Sys>, steps: seq<Step>, i: nat)
    requires IsRun(ss, steps) && Initial(ss[0]) && i < |ss|
    ensures SeenInv(ss[i])
  {
    if i > 0 {
      InitialInv(ss[0]);
      RunKeepsSysInv(ss, steps, i - 1);
      RunMarks(ss, steps, i - 1);
      StepMarks(ss[i - 1], steps[i - 1]);
    }
  }

  /** Step `i` is a reconcile pass whose reading of its pool's forge contains `rid`, then the registration of row `n`.
      */
  ghost predicate Listed(ss: seq<Sys>, steps: seq<Step>, i: int, n: string, rid: Rid) {
    && 0 <= i < |steps| && i < |ss|
    && steps[i].Ctl? && steps[i].c.Advance? && steps[i].c.listed
    && var w := ss[i].w;
       && LiveIn(w, steps[i].c.poolId, n) && steps[i].c.poolId in w.pools
       && rid == Rid(w.pools[steps[i].c.poolId].forgeId, w.rows[n].runnerId)
       && rid in w.runners
  }

  /** What a pass newly notes as seen. */
  lemma PassSees(w: World, poolId: nat, listed: bool, visits: seq<AdvanceVisit>, n: string, rid: Rid)
    requires poolId in w.pools
    requires Sighting(n, rid) in AdvancePool(w, poolId, listed, visits).past.seen && Sighting(n, rid) !in w.past.seen
    ensures listed && LiveIn(w, poolId, n) && rid == Rid(w.pools[poolId].forgeId, w.rows[n].runnerId)
    ensures rid in w.runners
  {
    var snap := SnapshotOf(w, w.pools[poolId].forgeId, listed);
    AdvanceAllFrame(Lifecycle.Witness(w, poolId, snap), w.pools[poolId], snap, visits);
    assert snap.Has(rid.id);
  }

  lemma SeenGrowsOnlyByListing(ss: seq<Sys>, steps: seq<Step>, i: nat, n: string, rid: Rid)
    requires IsRun(ss, steps) && i < |steps|
    requires Sighting(n, rid) in ss[i + 1].w.past.seen && Sighting(n, rid) !in ss[i].w.past.seen
    ensures Listed(ss, steps, i, n, rid)
  {
    var step := steps[i];
    if step.Ctl? && step.c.Advance? {
      PassSees(ss[i].w, step.c.poolId, step.c.listed, step.c.visits, n, rid);
    } else {
      OtherStepsSeeNothing(ss[i], step);
    }
  }

  lemma OtherStepsSeeNothing(s: Sys, step: Step)
    requires Enabled(s, step) && !(step.Ctl? && step.c.Advance?)
    ensures After(s, step).w.past.seen == s.w.past.seen
  {
    match step
    case Env(o) =>
    case Ctl(c) =>
      if c.Proceed? { EffectFrame(s.w, s.pass.value.flight.value, c.e); }
    case Sweeping(v) => SweepKeepsSeen(s.w, v);
    case Op(a) =>
      if a.DestroyMachine? { DestroyInstanceFrame(s.w, a.name, a.op); }
  }

  lemma SweepKeepsSeen(w: World, v: Sweep)
    ensures SweepEffect(w, v).past == w.past
  {
    match v
    case Clouds(vs) => CloudsKeepPast(w, vs);
    case Forges(vs) => Reaper.ReapForgesKeeps(w, vs);
    case Rows(vs) => Reaper.RowSweepGuarantee(w, vs);
  }

  lemma {:induction false} CloudsKeepPast(w: World, vs: seq<Reaper.CloudVisit>)
    ensures Reaper.ReapClouds(w, vs).past == w.past
  {
    if vs != [] {
      CloudsKeepPast(w, vs[..|vs| - 1]);
      var u, v := Reaper.ReapClouds(w, vs[..|vs| - 1]), vs[|vs| - 1];
      ListingKeepsPast(u, v.cloud, Reaper.Listing(u, v.cloud), v.machines);
    }
  }

  lemma {:induction false} ListingKeepsPast(w: World, cloud: nat, listing: map<string, Machine>,
                                            vs: seq<Reaper.MachineVisit>)
    ensures Reaper.ReapListing(w, cloud, listing, vs).past == w.past
  {
    if vs != [] { ListingKeepsPast(w, cloud, listing, vs[..|vs| - 1]); }
  }

  /** A registration is on record as seen only if some earlier pass's successful reading contained it, when it was
      already that row's. */
  lemma {:induction false} SeenHasListing(ss: seq<Sys>, steps: seq<Step>, j: nat, n: string, rid: Rid)
    requires IsRun(ss, steps) && Initial(ss[0]) && j < |ss| && Sighting(n, rid) in ss[j].w.past.seen
    ensures exists i :: 0 <= i < j && Listed(ss, steps, i, n, rid)
  {
    if Sighting(n, rid) in ss[j - 1].w.past.seen {
      SeenHasListing(ss, steps, j - 1, n, rid);
    } else {
      SeenGrowsOnlyByListing(ss, steps, j - 1, n, rid);
    }
  }

  // ---- teardown of a machine that is up ----

  /** The row has a machine that the provider reports up or coming up, and is within its lifetime. */
  ghost predicate UpAndYoung(w: World, pool: Pool, n: string) {
    && LiveRow(w, n) && !Lifecycle.Expired(pool, w.rows[n], w.now) && w.rows[n].providerId != ""
    && var m := MachineFor(w, pool, w.rows[n]); m.Some? && (m.value.state == Running || m.value.state == Creating)
  }

  /** The machine was deleted, or the row was set on its way out. */
  ghost predicate TornDown(w: World, w': World, pool: Pool, n: string)
    requires n in w.rows
  {
    || n !in w'.rows
    || Mid(pool.cloudId, w.rows[n].providerId) !in w'.machines
    || w'.rows[n].state == Deleted
    || (w'.rows[n].state == Draining && w.rows[n].state != Draining)
  }

  ghost predicate Believed(w: World, snap: Lifecycle.Snapshot, n: string)
    requires n in w.rows
  {
    w.rows[n].runnerId != "" && snap.Lacks(w.rows[n].runnerId) && Marked(w.rows[n])
  }

  lemma OneTeardown(w: World, poolId: nat, pool: Pool, snap: Lifecycle.Snapshot, v: AdvanceVisit)
    requires Inv(w) && poolId in w.pools && w.pools[poolId] == pool && LiveIn(w, poolId, v.name)
    requires UpAndYoung(w, pool, v.name) && TornDown(w, AdvanceOne(w, pool, snap, v), pool, v.name)
    ensures Believed(w, snap, v.name)
  {
    var r := w.rows[v.name];
    Lifecycle.TeardownNeedsEvidence(r, pool, MachineFor(w, pool, r), snap, w.now, v.e);
  }

  /** Up to the row's own visit the pass leaves it and its machine alone. */
  lemma {:induction false} UntouchedUntilVisited(w: World, poolId: nat, pool: Pool, snap: Lifecycle.Snapshot,
                                                 vs: seq<AdvanceVisit>, n: string)
    requires Inv(w) && poolId in w.pools && w.pools[poolId] == pool && RowsOfPool(w, poolId, vs)
    requires n !in VisitNames(vs) && LiveIn(w, poolId, n) && UpAndYoung(w, pool, n)
    ensures var u := AdvanceAll(w, pool, snap, vs);
            LiveIn(u, poolId, n) && u.rows[n] == w.rows[n] && UpAndYoung(u, pool, n) && !TornDown(w, u, pool, n)
  {
    if vs != [] {
      var before, last := vs[..|vs| - 1], vs[|vs| - 1];
      assert last in vs && forall v :: v in before ==> v in vs;
      assert VisitNames(vs) == VisitNames(before) + [last.name];
      UntouchedUntilVisited(w, poolId, pool, snap, before, n);
      MidPass(w, poolId, pool, snap, before, last.name);
      NotMyVisit(AdvanceAll(w, pool, snap, before), poolId, pool, snap, last, n);
      AdvanceAllFrame(w, pool, snap, before);
    }
  }

  /** Another row's visit does not tear this one down. */
  lemma NotMyVisit(u: World, poolId: nat, pool: Pool, snap: Lifecycle.Snapshot, v: AdvanceVisit, n: string)
    requires Inv(u) && poolId in u.pools && u.pools[poolId] == pool
    requires v.name in u.rows && u.rows[v.name].poolId == poolId && v.name != n
    requires LiveIn(u, poolId, n) && UpAndYoung(u, pool, n)
    ensures var u' := AdvanceOne(u, pool, snap, v);
            LiveIn(u', poolId, n) && u'.rows[n] == u.rows[n] && UpAndYoung(u', pool, n)
  {
    AdvanceOneFrame(u, pool, snap, v);
    if LiveRow(u, v.name) { OthersKeepTheirMachines(u, poolId, pool, snap, v, n); }
  }

  /** What tore the row down was not another row's visit. */
  lemma TornDownBefore(w: World, u: World, poolId: nat, pool: Pool, snap: Lifecycle.Snapshot, v: AdvanceVisit,
                       n: string)
    requires Inv(u) && poolId in u.pools && u.pools[poolId] == pool
    requires v.name in u.rows && u.rows[v.name].poolId == poolId && v.name != n
    requires n in w.rows && n in u.rows && u.rows[n].poolId == poolId
    requires w.rows[n].providerId != "" && u.rows[n].providerId == w.rows[n].providerId
    requires TornDown(w, AdvanceOne(u, pool, snap, v), pool, n)
    ensures TornDown(w, u, pool, n)
  {
  }

  lemma {:induction false} IdsStay(w: World, pool: Pool, snap: Lifecycle.Snapshot, vs: seq<AdvanceVisit>, n: string)
    requires n in w.rows
    ensures var u := AdvanceAll(w, pool, snap, vs); n in u.rows && u.rows[n].providerId == w.rows[n].providerId
  {
    if vs != [] {
      var before, last := vs[..|vs| - 1], vs[|vs| - 1];
      var u := AdvanceAll(w, pool, snap, before);
      IdsStay(w, pool, snap, before, n);
      AdvanceOneFrame(u, pool, snap, last);
      if LiveRow(u, last.name) {
        Lifecycle.AdvanceIsSound(u.rows[last.name], pool, MachineFor(u, pool, u.rows[last.name]), snap, u.now, last.e);
      }
    }
  }

  ghost predicate Distinct(names: seq<string>) {
    forall i, j :: 0 <= i < j < |names| ==> names[i] != names[j]
  }

  lemma LastIsNew(names: seq<string>, last: string)
    requires Distinct(names + [last])
    ensures last !in names && Distinct(names)
  {
    var all := names + [last];
    forall i | 0 <= i < |names| ensures names[i] != last { assert all[i] == names[i] && all[|names|] == last; }
    forall i, j | 0 <= i < j < |names| ensures names[i] != names[j] { assert all[i] == names[i] && all[j] == names[j]; }
  }

  lemma OwnVisitTears(w: World, poolId: nat, pool: Pool, snap: Lifecycle.Snapshot, before: seq<AdvanceVisit>,
                      v: AdvanceVisit)
    requires Inv(w) && poolId in w.pools && w.pools[poolId] == pool && RowsOfPool(w, poolId, before)
    requires LiveIn(w, poolId, v.name) && UpAndYoung(w, pool, v.name) && v.name !in VisitNames(before)
    requires TornDown(w, AdvanceOne(AdvanceAll(w, pool, snap, before), pool, snap, v), pool, v.name)
    ensures Believed(w, snap, v.name)
  {
    MidPass(w, poolId, pool, snap, before, v.name);
    UntouchedUntilVisited(w, poolId, pool, snap, before, v.name);
    OneTeardown(AdvanceAll(w, pool, snap, before), poolId, pool, snap, v);
  }

  /** A pass tears down a machine that is up only when its reading lacks a registration that was once seen at work. */
  lemma {:induction false} TeardownInPass(w: World, poolId: nat, pool: Pool, snap: Lifecycle.Snapshot,
                                          vs: seq<AdvanceVisit>, n: string)
    requires Inv(w) && poolId in w.pools && w.pools[poolId] == pool && RowsOfPool(w, poolId, vs)
    requires Distinct(VisitNames(vs))
    requires LiveIn(w, poolId, n) && UpAndYoung(w, pool, n) && TornDown(w, AdvanceAll(w, pool, snap, vs), pool, n)
    ensures Believed(w, snap, n)
    decreases |vs|
  {
    if n !in VisitNames(vs) {
      UntouchedUntilVisited(w, poolId, pool, snap, vs, n);
    } else {
      var before, last := vs[..|vs| - 1], vs[|vs| - 1];
      assert last in vs && forall v :: v in before ==> v in vs;
      assert VisitNames(vs) == VisitNames(before) + [last.name];
      LastIsNew(VisitNames(before), last.name);
      if last.name == n {
        OwnVisitTears(w, poolId, pool, snap, before, last);
      } else {
        MidPass(w, poolId, pool, snap, before, last.name);
        MidPass(w, poolId, pool, snap, before, n);
        IdsStay(w, pool, snap, before, n);
        TornDownBefore(w, AdvanceAll(w, pool, snap, before), poolId, pool, snap, last, n);
        TeardownInPass(w, poolId, pool, snap, before, n);
      }
    }
  }

  /** An earlier pass's working reading contained `rid`, when it was this row's; and as long as the pool is still on
      that forge, it is gone from there now. */
  ghost predicate SeenAndGone(ss: seq<Sys>, steps: seq<Step>, j: nat, n: string, rid: Rid)
    requires j < |steps| && j < |ss| && steps[j].Ctl? && steps[j].c.Advance?
    requires n in ss[j].w.rows && steps[j].c.poolId in ss[j].w.pools
  {
    var w := ss[j].w;
    && rid.id == w.rows[n].runnerId
    && (exists i :: 0 <= i < j && Listed(ss, steps, i, n, rid))
    && (w.pools[steps[j].c.poolId].forgeId == rid.forge ==> rid !in w.runners)
  }

  /** In any run: when a reconcile pass tears down a machine that its provider reports up and that is within its
      lifetime, its reading of the forge worked and lacks the registration, and some earlier pass's working reading
      contained that same registration, when it was already this row's. Unless the pool has been moved to another forge
      in between, it is that very registration that is gone. A failed reading never costs a machine. */
  lemma TeardownHasHistory(ss: seq<Sys>, steps: seq<Step>, j: nat, n: string)
    requires IsRun(ss, steps) && Initial(ss[0]) && j < |steps| && steps[j].Ctl? && steps[j].c.Advance?
    requires var w, poolId := ss[j].w, steps[j].c.poolId;
             && poolId in w.pools && LiveIn(w, poolId, n) && UpAndYoung(w, w.pools[poolId], n)
             && TornDown(w, ss[j + 1].w, w.pools[poolId], n)
    ensures var w, poolId := ss[j].w, steps[j].c.poolId;
            && steps[j].c.listed
            && Rid(w.pools[poolId].forgeId, w.rows[n].runnerId) !in w.runners
            && exists rid :: SeenAndGone(ss, steps, j, n, rid)
  {
    InitialInv(ss[0]);
    RunKeepsSysInv(ss, steps, j);
    RunMarks(ss, steps, j);
    var w := ss[j].w;
    PassTeardown(w, steps[j].c.poolId, steps[j].c.listed, steps[j].c.visits, n);
    var f: nat :| Sighting(n, Rid(f, w.rows[n].runnerId)) in w.past.seen;
    SeenHasListing(ss, steps, j, n, Rid(f, w.rows[n].runnerId));
    assert SeenAndGone(ss, steps, j, n, Rid(f, w.rows[n].runnerId));
  }

  lemma PassTeardown(w: World, poolId: nat, listed: bool, vs: seq<AdvanceVisit>, n: string)
    requires Inv(w) && MarksSeen(w) && poolId in w.pools && Enumerates(VisitNames(vs), LiveNames(w, poolId))
    requires LiveIn(w, poolId, n) && UpAndYoung(w, w.pools[poolId], n)
    requires TornDown(w, AdvancePool(w, poolId, listed, vs), w.pools[poolId], n)
    ensures listed && Rid(w.pools[poolId].forgeId, w.rows[n].runnerId) !in w.runners
    ensures Marked(w.rows[n]) && Sighted(w, n)
  {
    var pool := w.pools[poolId];
    var snap := SnapshotOf(w, pool.forgeId, listed);
    var w1 := Lifecycle.Witness(w, poolId, snap);
    WitnessKeeps(w, poolId, snap);
    VisitsAreOfPool(w, poolId, vs);
    TeardownInPass(w1, poolId, pool, snap, vs, n);
    assert Believed(w1, snap, n);
  }

  // ---- a registration that still stands ----

  /** The calls about one row all work. */
  predicate VisitWorks(v: AdvanceVisit) {
    v.e.got && v.e.save.Ok? && v.e.destroy == Lifecycle.DestroyEnv(Ok, Ok, Ok, Ok)
  }

  /** Its own visit removes the machine of a row whose registration is believed gone. */
  lemma OwnVisitRemoves(u: World, poolId: nat, pool: Pool, snap: Lifecycle.Snapshot, v: AdvanceVisit)
    requires Inv(u) && poolId in u.pools && u.pools[poolId] == pool && LiveIn(u, poolId, v.name)
    requires UpAndYoung(u, pool, v.name) && VisitWorks(v) && Believed(u, snap, v.name)
    ensures Mid(pool.cloudId, u.rows[v.name].providerId) !in AdvanceOne(u, pool, snap, v).machines
  {
    var r := u.rows[v.name];
    Lifecycle.TeardownExactlyWhen(r, pool, MachineFor(u, pool, r), snap, u.now, v.e);
  }

  lemma {:induction false} GoneStaysGone(w: World, pool: Pool, snap: Lifecycle.Snapshot, vs: seq<AdvanceVisit>, k: Mid)
    requires k !in w.machines
    ensures k !in AdvanceAll(w, pool, snap, vs).machines
  {
    if vs != [] {
      GoneStaysGone(w, pool, snap, vs[..|vs| - 1], k);
      AdvanceOneFrame(AdvanceAll(w, pool, snap, vs[..|vs| - 1]), pool, snap, vs[|vs| - 1]);
    }
  }

  lemma {:induction false} BelievedIsRemoved(w: World, poolId: nat, pool: Pool, snap: Lifecycle.Snapshot,
                                             vs: seq<AdvanceVisit>, n: string)
    requires Inv(w) && poolId in w.pools && w.pools[poolId] == pool && RowsOfPool(w, poolId, vs)
    requires Distinct(VisitNames(vs)) && n in VisitNames(vs) && forall v :: v in vs ==> VisitWorks(v)
    requires LiveIn(w, poolId, n) && UpAndYoung(w, pool, n) && Believed(w, snap, n)
    ensures Mid(pool.cloudId, w.rows[n].providerId) !in AdvanceAll(w, pool, snap, vs).machines
  {
    var before, last := vs[..|vs| - 1], vs[|vs| - 1];
    assert last in vs && forall v :: v in before ==> v in vs;
    assert VisitNames(vs) == VisitNames(before) + [last.name];
    LastIsNew(VisitNames(before), last.name);
    var u := AdvanceAll(w, pool, snap, before);
    if last.name == n {
      MidPass(w, poolId, pool, snap, before, n);
      UntouchedUntilVisited(w, poolId, pool, snap, before, n);
      OwnVisitRemoves(u, poolId, pool, snap, last);
    } else {
      BelievedIsRemoved(w, poolId, pool, snap, before, n);
      AdvanceOneFrame(u, pool, snap, last);
    }
  }

  /** A pass that can read the forge and whose calls work removes a machine that is up and within its lifetime exactly
      when the row is marked and the registration is not on the forge the pool is on now. */
  lemma PassRemovesExactlyWhen(w: World, poolId: nat, vs: seq<AdvanceVisit>, n: string)
    requires Inv(w) && poolId in w.pools && Enumerates(VisitNames(vs), LiveNames(w, poolId))
    requires forall v :: v in vs ==> VisitWorks(v)
    requires LiveIn(w, poolId, n) && UpAndYoung(w, w.pools[poolId], n)
    ensures var pool := w.pools[poolId];
            Mid(pool.cloudId, w.rows[n].providerId) !in AdvancePool(w, poolId, true, vs).machines <==>
              && Marked(w.rows[n]) && w.rows[n].runnerId != ""
              && Rid(pool.forgeId, w.rows[n].runnerId) !in w.runners
  {
    var pool := w.pools[poolId];
    var snap := SnapshotOf(w, pool.forgeId, true);
    var w1 := Lifecycle.Witness(w, poolId, snap);
    WitnessKeeps(w, poolId, snap);
    VisitsAreOfPool(w, poolId, vs);
    assert Believed(w1, snap, n) <==>
      && Marked(w.rows[n]) && w.rows[n].runnerId != "" && Rid(pool.forgeId, w.rows[n].runnerId) !in w.runners;
    if Believed(w1, snap, n) {
      assert n in LiveNames(w, poolId);
      BelievedIsRemoved(w1, poolId, pool, snap, vs, n);
    } else if Mid(pool.cloudId, w.rows[n].providerId) !in AdvanceAll(w1, pool, snap, vs).machines {
      TeardownInPass(w1, poolId, pool, snap, vs, n);
    }
  }

  /** In any state of any run: when the registration by which a machine was once seen at work still stands, a working
      pass removes the machine, up and within its lifetime as it is, exactly when its pool has been moved to another
      forge on which there is no registration of that id. */
  lemma SightedWorkerIsRemovedExactlyWhen(
    ss: seq<Sys>, steps: seq<Step>, j: nat, poolId: nat, vs: seq<AdvanceVisit>, n: string, rid: Rid)
    requires IsRun(ss, steps) && Initial(ss[0]) && j < |ss|
    requires var w := ss[j].w;
             && poolId in w.pools && Enumerates(VisitNames(vs), LiveNames(w, poolId))
             && LiveIn(w, poolId, n) && UpAndYoung(w, w.pools[poolId], n) && Marked(w.rows[n])
             && rid.id == w.rows[n].runnerId && Sighting(n, rid) in w.past.seen && rid in w.runners
    requires forall v :: v in vs ==> VisitWorks(v)
    ensures var w := ss[j].w; var pool := w.pools[poolId];
            Mid(pool.cloudId, w.rows[n].providerId) !in AdvancePool(w, poolId, true, vs).machines <==>
              pool.forgeId != rid.forge && Rid(pool.forgeId, rid.id) !in w.runners
  {
    InitialInv(ss[0]);
    RunKeepsSysInv(ss, steps, j);
    RunMarks(ss, steps, j);
    PassRemovesExactlyWhen(ss[j].w, poolId, vs, n);
  }
}
