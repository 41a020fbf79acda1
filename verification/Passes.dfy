/** One reconcile pass over a pool's machines (reconcilePool in internal/controller/controller.go up to the scaling
    decision) and the operator's destroy (internal/controller/admin.go). */
module Passes {
  import opened Types
  import opened Instances
  import opened Worlds
  import opened Lifecycle

  datatype AdvanceVisit = AdvanceVisit(name: string, e: AdvanceEnv)

  /** The machine a row's provider id names, if it exists. */
  function MachineFor(w: World, pool: Pool, r: Row): Option<Machine> {
    var k := Mid(pool.cloudId, r.providerId);
    if r.providerId != "" && k in w.machines then Some(w.machines[k]) else None
  }

  function FateIn(w: World, pool: Pool, snap: Snapshot, v: AdvanceVisit): Fate
    requires v.name in w.rows
  {
    Advance(w.rows[v.name], pool, MachineFor(w, pool, w.rows[v.name]), snap, w.now, v.e)
  }

  function AdvanceOne(w: World, pool: Pool, snap: Snapshot, v: AdvanceVisit): World {
    if LiveRow(w, v.name) then Apply(w, pool, v.name, FateIn(w, pool, snap, v)) else w
  }

  function AdvanceAll(w: World, pool: Pool, snap: Snapshot, vs: seq<AdvanceVisit>): World {
    if vs == [] then w else AdvanceOne(AdvanceAll(w, pool, snap, vs[..|vs| - 1]), pool, snap, vs[|vs| - 1])
  }

  function VisitNames(vs: seq<AdvanceVisit>): seq<string> {
    seq(|vs|, i requires 0 <= i < |vs| => vs[i].name)
  }

  function SnapshotOf(w: World, forge: nat, listed: bool): Snapshot {
    if listed then Listed(Registrations(w, forge)) else Untrusted
  }

  /** The advance half of a pass: one reading of the forge shared by all machines of the pool. */
  function AdvancePool(w: World, poolId: nat, listed: bool, vs: seq<AdvanceVisit>): World
    requires poolId in w.pools
  {
    var pool := w.pools[poolId];
    var snap := SnapshotOf(w, pool.forgeId, listed);
    AdvanceAll(Witness(w, poolId, snap), pool, snap, vs)
  }

  // ---- frames ----

  /** Everything the advance half leaves alone. */
  ghost predicate PassFrame(w: World, w': World) {
    && w' == w.(rows := w'.rows, machines := w'.machines, runners := w'.runners)
    && w'.rows.Keys == w.rows.Keys
    && (forall n :: n in w.rows ==> w'.rows[n].poolId == w.rows[n].poolId)
    && (forall k :: k in w'.machines ==> k in w.machines && w'.machines[k] == w.machines[k])
  }

  lemma AdvanceOneFrame(w: World, pool: Pool, snap: Snapshot, v: AdvanceVisit)
    ensures var w' := AdvanceOne(w, pool, snap, v);
            && PassFrame(w, w')
            && (forall n :: n in w.rows && n != v.name ==> w'.rows[n] == w.rows[n])
  {
    if LiveRow(w, v.name) {
      AdvanceIsSound(w.rows[v.name], pool, MachineFor(w, pool, w.rows[v.name]), snap, w.now, v.e);
    }
  }

  lemma {:induction false} AdvanceAllFrame(w: World, pool: Pool, snap: Snapshot, vs: seq<AdvanceVisit>)
    ensures var w' := AdvanceAll(w, pool, snap, vs);
            && PassFrame(w, w')
            && (forall n :: n in w.rows && n !in VisitNames(vs) ==> w'.rows[n] == w.rows[n])
  {
    if vs != [] {
      var before := vs[..|vs| - 1];
      AdvanceAllFrame(w, pool, snap, before);
      AdvanceOneFrame(AdvanceAll(w, pool, snap, before), pool, snap, vs[|vs| - 1]);
      assert VisitNames(vs) == VisitNames(before) + [vs[|vs| - 1].name];
    }
  }

  // ---- the invariant and the rows ----

  /** The visits are of rows of this pool. */
  ghost predicate RowsOfPool(w: World, poolId: nat, vs: seq<AdvanceVisit>) {
    forall v :: v in vs ==> v.name in w.rows && w.rows[v.name].poolId == poolId
  }

  lemma AdvanceOneKeepsInv(w: World, poolId: nat, pool: Pool, snap: Snapshot, v: AdvanceVisit)
    requires Inv(w) && poolId in w.pools && w.pools[poolId] == pool
    requires v.name in w.rows && w.rows[v.name].poolId == poolId
    ensures Inv(AdvanceOne(w, pool, snap, v))
  {
    if LiveRow(w, v.name) {
      var r := w.rows[v.name];
      AdvanceIsSound(r, pool, MachineFor(w, pool, r), snap, w.now, v.e);
      ApplyKeepsInv(w, pool, v.name, FateIn(w, pool, snap, v));
    }
  }

  lemma {:induction false} AdvanceAllKeepsInv(w: World, poolId: nat, pool: Pool, snap: Snapshot, vs: seq<AdvanceVisit>)
    requires Inv(w) && poolId in w.pools && w.pools[poolId] == pool && RowsOfPool(w, poolId, vs)
    ensures Inv(AdvanceAll(w, pool, snap, vs))
  {
    if vs != [] {
      var before, v := vs[..|vs| - 1], vs[|vs| - 1];
      assert forall u :: u in before ==> u in vs;
      AdvanceAllKeepsInv(w, poolId, pool, snap, before);
      AdvanceAllFrame(w, pool, snap, before);
      assert v in vs;
      AdvanceOneKeepsInv(AdvanceAll(w, pool, snap, before), poolId, pool, snap, v);
    }
  }

  ghost predicate RowsOk(w: World) {
    forall n :: n in w.rows ==> RowOk(w.rows[n], w.now)
  }

  /** Each row that is still there has evolved. */
  ghost predicate RowsEvolve(w: World, w': World) {
    forall n :: n in w.rows && n in w'.rows ==> Evolves(w.rows[n], w'.rows[n], w.now)
  }

  lemma AdvanceOneEvolves(w: World, pool: Pool, snap: Snapshot, v: AdvanceVisit)
    requires RowsOk(w)
    ensures var w' := AdvanceOne(w, pool, snap, v); RowsOk(w') && RowsEvolve(w, w')
  {
    AdvanceOneFrame(w, pool, snap, v);
    if LiveRow(w, v.name) {
      AdvanceEvolves(w.rows[v.name], pool, MachineFor(w, pool, w.rows[v.name]), snap, w.now, v.e);
    }
    forall n | n in w.rows && n != v.name ensures Evolves(w.rows[n], w.rows[n], w.now) {
      EvolvesReflexive(w.rows[n], w.now);
    }
    if v.name in w.rows { EvolvesReflexive(w.rows[v.name], w.now); }
  }

  lemma RowsEvolveTransitive(a: World, b: World, c: World)
    requires RowsEvolve(a, b) && RowsEvolve(b, c) && b.now == a.now && b.rows.Keys == a.rows.Keys
    ensures RowsEvolve(a, c)
  {
    forall n | n in a.rows && n in c.rows ensures Evolves(a.rows[n], c.rows[n], a.now) {
      EvolvesTransitive(a.rows[n], b.rows[n], c.rows[n], a.now);
    }
  }

  lemma {:induction false} AdvanceAllEvolves(w: World, pool: Pool, snap: Snapshot, vs: seq<AdvanceVisit>)
    requires RowsOk(w)
    ensures var w' := AdvanceAll(w, pool, snap, vs); RowsOk(w') && RowsEvolve(w, w')
  {
    if vs == [] {
      forall n | n in w.rows ensures Evolves(w.rows[n], w.rows[n], w.now) { EvolvesReflexive(w.rows[n], w.now); }
    } else {
      var before := AdvanceAll(w, pool, snap, vs[..|vs| - 1]);
      AdvanceAllEvolves(w, pool, snap, vs[..|vs| - 1]);
      AdvanceAllFrame(w, pool, snap, vs[..|vs| - 1]);
      AdvanceOneEvolves(before, pool, snap, vs[|vs| - 1]);
      RowsEvolveTransitive(w, before, AdvanceAll(w, pool, snap, vs));
    }
  }

  // ---- what survives a pass ----

  /** Within its lifetime, and either still without a machine and not failed, or with one that is up or coming up. */
  ghost predicate Healthy(w: World, pool: Pool, name: string)
    requires name in w.rows
  {
    var r := w.rows[name];
    && !Expired(pool, r, w.now)
    && (if r.providerId == "" then r.state != Failed
        else
          var k := Mid(pool.cloudId, r.providerId);
          k in w.machines && (w.machines[k].state == Running || w.machines[k].state == Creating))
  }

  predicate AdvanceOk(e: AdvanceEnv) {
    e.got && e.save.Ok? && (e.logs.Some? ==> e.logs.value.Ok?) && e.destroy == DestroyEnv(Ok, Ok, Ok, Ok)
  }

  lemma AdvanceOneHeals(w: World, poolId: nat, pool: Pool, snap: Snapshot, v: AdvanceVisit)
    requires Inv(w) && poolId in w.pools && w.pools[poolId] == pool && LiveIn(w, poolId, v.name) && AdvanceOk(v.e)
    ensures var w' := AdvanceOne(w, pool, snap, v); LiveRow(w', v.name) ==> Healthy(w', pool, v.name)
  {
    var r := w.rows[v.name];
    SurvivorsAreHealthy(r, pool, MachineFor(w, pool, r), snap, w.now, v.e);
    AdvanceIsSound(r, pool, MachineFor(w, pool, r), snap, w.now, v.e);
  }

  /** Destroying one row never removes another row's machine. */
  lemma OthersKeepTheirMachines(w: World, poolId: nat, pool: Pool, snap: Snapshot, v: AdvanceVisit, other: string)
    requires Inv(w) && poolId in w.pools && w.pools[poolId] == pool
    requires LiveIn(w, poolId, v.name) && LiveRow(w, other) && other != v.name
    ensures var w' := AdvanceOne(w, pool, snap, v);
            var r := w.rows[other];
            && LiveRow(w', other) && w'.rows[other] == r
            && (r.providerId != "" ==>
                  var k := Mid(w.pools[r.poolId].cloudId, r.providerId);
                  k in w.machines ==> k in w'.machines && w'.machines[k] == w.machines[k])
  {
  }

  lemma SurvivorStep(w: World, poolId: nat, pool: Pool, snap: Snapshot, v: AdvanceVisit, name: string)
    requires Inv(w) && poolId in w.pools && w.pools[poolId] == pool && AdvanceOk(v.e)
    requires v.name in w.rows && w.rows[v.name].poolId == poolId && name in w.rows && w.rows[name].poolId == poolId
    requires name != v.name && LiveRow(w, name) ==> Healthy(w, pool, name)
    ensures var w' := AdvanceOne(w, pool, snap, v); LiveRow(w', name) ==> Healthy(w', pool, name)
  {
    AdvanceOneFrame(w, pool, snap, v);
    if LiveRow(w, v.name) {
      if name == v.name {
        AdvanceOneHeals(w, poolId, pool, snap, v);
      } else if LiveRow(w, name) {
        OthersKeepTheirMachines(w, poolId, pool, snap, v, name);
      }
    }
  }

  lemma MidPass(w: World, poolId: nat, pool: Pool, snap: Snapshot, vs: seq<AdvanceVisit>, n: string)
    requires Inv(w) && poolId in w.pools && w.pools[poolId] == pool && RowsOfPool(w, poolId, vs)
    requires n in w.rows && w.rows[n].poolId == poolId
    ensures var u := AdvanceAll(w, pool, snap, vs);
            Inv(u) && u.pools == w.pools && n in u.rows && u.rows[n].poolId == poolId
  {
    AdvanceAllKeepsInv(w, poolId, pool, snap, vs);
    AdvanceAllFrame(w, pool, snap, vs);
  }

  /** The visit of any row of the pool, after those in `before`. */
  lemma NextSurvivor(w: World, poolId: nat, pool: Pool, snap: Snapshot, before: seq<AdvanceVisit>, last: AdvanceVisit,
                     name: string)
    requires Inv(w) && poolId in w.pools && w.pools[poolId] == pool && RowsOfPool(w, poolId, before)
             && AdvanceOk(last.e)
    requires name in w.rows && w.rows[name].poolId == poolId && last.name in w.rows
             && w.rows[last.name].poolId == poolId
    requires name != last.name ==>
      (var u := AdvanceAll(w, pool, snap, before); LiveRow(u, name) ==> Healthy(u, pool, name))
    ensures var w' := AdvanceOne(AdvanceAll(w, pool, snap, before), pool, snap, last);
            LiveRow(w', name) ==> Healthy(w', pool, name)
  {
    MidPass(w, poolId, pool, snap, before, name);
    MidPass(w, poolId, pool, snap, before, last.name);
    SurvivorStep(AdvanceAll(w, pool, snap, before), poolId, pool, snap, last, name);
  }

  /** With every call working, every row of the pool that is live after the advance half is healthy. */
  lemma {:induction false} SurvivorsOfPass(w: World, poolId: nat, pool: Pool, snap: Snapshot, vs: seq<AdvanceVisit>,
                                           name: string)
    requires Inv(w) && poolId in w.pools && w.pools[poolId] == pool && RowsOfPool(w, poolId, vs)
    requires forall v :: v in vs ==> AdvanceOk(v.e)
    requires name in VisitNames(vs)
    ensures var w' := AdvanceAll(w, pool, snap, vs); LiveRow(w', name) ==> Healthy(w', pool, name)
  {
    var before, last := vs[..|vs| - 1], vs[|vs| - 1];
    assert last in vs && forall u :: u in before ==> u in vs;
    NamedIsVisited(vs, name);
    if name != last.name {
      assert VisitNames(vs) == VisitNames(before) + [last.name];
      SurvivorsOfPass(w, poolId, pool, snap, before, name);
    }
    NextSurvivor(w, poolId, pool, snap, before, last, name);
  }

  lemma NamedIsVisited(vs: seq<AdvanceVisit>, name: string)
    requires name in VisitNames(vs)
    ensures exists v :: v in vs && v.name == name
  {
  }

  /** A visit whose calls work takes the row, its machine and its registration together, or none of them. */
  lemma VisitTakesAllOrNothing(w: World, pool: Pool, snap: Snapshot, v: AdvanceVisit)
    requires LiveRow(w, v.name) && v.e.got && v.e.destroy == DestroyEnv(Ok, Ok, Ok, Ok)
    ensures var r, w' := w.rows[v.name], AdvanceOne(w, pool, snap, v);
            if LiveRow(w', v.name) then w'.machines == w.machines && w'.runners == w.runners
            else
              && w'.machines == (if r.providerId == "" then w.machines
                                 else w.machines - {Mid(pool.cloudId, r.providerId)})
              && w'.runners == (if r.runnerId == "" then w.runners else w.runners - {Rid(pool.forgeId, r.runnerId)})
  {
    ClosedExactlyWhen(w.rows[v.name], pool, MachineFor(w, pool, w.rows[v.name]), snap, w.now, v.e);
  }

  // ---- the operator's destroy ----

  /** Answers during DestroyInstance: loading the row, the pool lookup, building the cloud's and the forge's client,
      the save that closes a row nothing was created for, and the destroy. */
  datatype OperatorEnv = OperatorEnv(loaded: bool, lookup: bool, resolved: bool, forge: bool, close: Reply,
                                     destroy: DestroyEnv)

  function CloseOnly(r: Row, now: int, reply: Reply): Fate {
    Saved(r, Stamp(r, Deleted, now), reply)
  }

  /** DestroyInstance: closes a row nothing was created for or whose pool is gone; otherwise destroys, with or without
      the forge, but never without the cloud. */
  function DestroyInstance(w: World, name: string, e: OperatorEnv): World {
    if !e.loaded || !LiveRow(w, name) then w
    else
      var r := w.rows[name];
      if r.providerId == "" && r.runnerId == "" then
        w.(rows := w.rows[name := CloseOnly(r, w.now, e.close).row])
      else if !e.lookup then w
      else if r.poolId !in w.pools then
        w.(rows := w.rows[name := CloseOnly(r, w.now, e.close).row])
      else if !e.resolved then w
      else Apply(w, w.pools[r.poolId], name, Destroy(r, r, e.forge, w.now, e.destroy))
  }

  /** DestroyInstance returns no error. */
  predicate OperatorSucceeds(w: World, name: string, e: OperatorEnv) {
    && e.loaded && name in w.rows
    && var r := w.rows[name];
       if !r.Live() then true
       else if r.providerId == "" && r.runnerId == "" then e.close.Ok?
       else e.lookup && if r.poolId !in w.pools then e.close.Ok? else e.resolved && DestroySucceeds(r, e.destroy)
  }

  lemma DestroyInstanceKeepsInv(w: World, name: string, e: OperatorEnv)
    requires Inv(w)
    ensures Inv(DestroyInstance(w, name, e))
  {
    if LiveRow(w, name) {
      var r := w.rows[name];
      assert Fits(w, name, r);
      DestroyOutcome(r, r, e.forge, w.now, e.destroy);
      ApplyKeepsInv(w, w.pools[r.poolId], name, Destroy(r, r, e.forge, w.now, e.destroy));
      if r.providerId == "" { ApplyKeepsInv(w, w.pools[r.poolId], name, CloseOnly(r, w.now, e.close)); }
    }
  }

  lemma DestroyInstanceEvolves(w: World, name: string, e: OperatorEnv)
    requires RowsOk(w)
    ensures var w' := DestroyInstance(w, name, e); RowsOk(w') && RowsEvolve(w, w') && w'.rows.Keys == w.rows.Keys
  {
    DestroyInstanceFrame(w, name, e);
    forall n | n in w.rows ensures Evolves(w.rows[n], w.rows[n], w.now) { EvolvesReflexive(w.rows[n], w.now); }
    if LiveRow(w, name) { DestroyedRowEvolves(w, name, e); }
  }

  lemma DestroyedRowEvolves(w: World, name: string, e: OperatorEnv)
    requires LiveRow(w, name) && RowOk(w.rows[name], w.now)
    ensures var r := DestroyInstance(w, name, e).rows[name]; Evolves(w.rows[name], r, w.now) && RowOk(r, w.now)
  {
    var r := w.rows[name];
    EvolvesReflexive(r, w.now);
    ClosingEvolves(r, w.now);
    DestroyEvolves(r, r, e.forge, w.now, e.destroy);
    assert DestroyInstance(w, name, e).rows[name] in
      {r, Stamp(r, Deleted, w.now), Destroy(r, r, e.forge, w.now, e.destroy).row};
  }

  lemma DestroyInstanceFrame(w: World, name: string, e: OperatorEnv)
    ensures var w' := DestroyInstance(w, name, e);
            && w' == w.(rows := w'.rows, machines := w'.machines, runners := w'.runners)
            && w'.rows.Keys == w.rows.Keys
            && (forall n :: n in w.rows && n != name ==> w'.rows[n] == w.rows[n])
  {
  }

  /** The operator's destroy in its branches. A row of which nothing was made, or whose pool is gone, is closed without
      a call to anyone and without a bill; without the pool's record, or without its cloud, nothing is done; and
      otherwise the machine goes as in any destroy, a forge that cannot be reached or not. */
  lemma OperatorBranches(w: World, name: string, e: OperatorEnv)
    requires LiveRow(w, name)
    ensures var w', r := DestroyInstance(w, name, e), w.rows[name];
            var made := r.providerId != "" || r.runnerId != "";
            var closed := w.(rows := w.rows[name := r.(state := Deleted,
                                                       destroyedAt := FirstOf(r.destroyedAt, w.now))]);
            if !e.loaded || (made && !e.lookup) || (made && r.poolId in w.pools && !e.resolved) then w' == w
            else if !made || r.poolId !in w.pools then w' == if e.close.Applied() then closed else w
            else
              var k, d := Mid(w.pools[r.poolId].cloudId, r.providerId), e.destroy;
              var draining := r.state == Draining || d.drain.Ok?;
              && w'.machines == (if r.providerId != "" && draining && d.delete.Applied() then w.machines - {k}
                                 else w.machines)
              && (w'.rows[name].state == Deleted <==>
                    draining && (r.providerId == "" || d.delete.Ok?) && d.close.Applied())
              && w'.runners == (if e.forge && r.runnerId != "" && draining && (r.providerId == "" || d.delete.Ok?)
                                   && d.deprovision.Applied()
                                then w.runners - {Rid(w.pools[r.poolId].forgeId, r.runnerId)} else w.runners)
  {
    DestroyExactly(w.rows[name], w.rows[name], e.forge, w.now, e.destroy);
  }

  /** An operator's destroy that reports success leaves the row closed and no machine of its name that the row knew
      of; one that could not delete the machine leaves the row live. */
  lemma OperatorDestroyOutcome(w: World, name: string, e: OperatorEnv)
    requires Inv(w) && LiveRow(w, name)
    ensures var w', r := DestroyInstance(w, name, e), w.rows[name];
            && (OperatorSucceeds(w, name, e) ==> !LiveRow(w', name))
            && (OperatorSucceeds(w, name, e) && r.providerId != "" ==>
                  forall k :: k in w'.machines && Ours(w.self, w'.machines[k]) ==> w'.machines[k].name != name)
            && (r.providerId != "" && DeleteFails(r, e.destroy) ==> LiveRow(w', name))
  {
    var r := w.rows[name];
    assert Fits(w, name, r);
    DestroyOutcome(r, r, e.forge, w.now, e.destroy);
    if OperatorSucceeds(w, name, e) && r.providerId != "" { KnownMachineGone(w, name, e); }
  }

  lemma KnownMachineGone(w: World, name: string, e: OperatorEnv)
    requires LiveRow(w, name) && Fits(w, name, w.rows[name]) && w.rows[name].providerId != ""
             && OperatorSucceeds(w, name, e)
    ensures var w' := DestroyInstance(w, name, e);
            forall k :: k in w'.machines && Ours(w.self, w'.machines[k]) ==> w'.machines[k].name != name
  {
  }

  // ---- states do not form a line ----

  /** How a row comes to move back: a destroy on request whose delete fails leaves a machine at work with a Draining
      row, and the next pass that finds its runner busy writes Busy. */
  lemma FailedDestroyThenBusy(w: World, name: string, op: OperatorEnv, listed: bool, v: AdvanceVisit)
    requires LiveRow(w, name) && !Hidden(w.rows[name].state) && w.rows[name].poolId in w.pools
    requires op.loaded && op.lookup && op.resolved && op.destroy.drain.Ok? && op.destroy.delete == Err(false)
    requires v.name == name
    requires var r, pool := w.rows[name], w.pools[w.rows[name].poolId];
             FoundBusy(r, pool, MachineFor(w, pool, r), SnapshotOf(w, pool.forgeId, listed), w.now, v.e)
    ensures var pool := w.pools[w.rows[name].poolId];
            var w1 := DestroyInstance(w, name, op);
            var w2 := AdvanceOne(w1, pool, SnapshotOf(w1, pool.forgeId, listed), v);
            && w1.rows[name].state == Draining && w1.machines == w.machines
            && w2.rows[name].state == Busy
            && Place(w2.rows[name].state) < Place(w1.rows[name].state)
  {
    var pool := w.pools[w.rows[name].poolId];
    var w1 := DestroyInstance(w, name, op);
    assert SnapshotOf(w1, pool.forgeId, listed) == SnapshotOf(w, pool.forgeId, listed);
    AdvanceMovesBackExactlyWhen(w1.rows[name], pool, MachineFor(w1, pool, w1.rows[name]),
                                SnapshotOf(w1, pool.forgeId, listed), w1.now, v.e);
  }
}
