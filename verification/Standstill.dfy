/** Reconcile passes when nothing else happens (reconcilePool in internal/controller/controller.go): with the clock, the
    clouds, the forges and the demand standing still the second pass launches nothing and the third changes nothing; and
    when a pool is left without machines. */
module Standstill {
  import opened Types
  import opened Instances
  import opened Worlds
  import opened Lifecycle
  import opened Launches
  import opened Passes
  import opened System
  import Accounting
  import Capacity
  import Evidence
  import K8s
  import Refinement
  import Scaling

  // ---- one row, advanced twice ----

  /** Two readings that say the same about a row's registration. */
  predicate AgreeOn(snap: Snapshot, again: Snapshot, r: Row) {
    && snap.Listed? && again.Listed?
    && (r.runnerId != "" ==>
          && (r.runnerId in snap.runners <==> r.runnerId in again.runners)
          && (r.runnerId in snap.runners ==> again.runners[r.runnerId] == snap.runners[r.runnerId]))
  }

  lemma DestroysWholly(stored: Row, inst: Row, now: int, e: DestroyEnv)
    requires CopyOf(stored, inst, now) && e == DestroyEnv(Ok, Ok, Ok, Ok)
    ensures !Destroy(stored, inst, true, now, e).row.Live()
  {
  }

  lemma RunningTwice(r: Row, m: Machine, snap: Snapshot, again: Snapshot, now: int, e: AdvanceEnv, e': AdvanceEnv)
    requires r.Live() && AdvanceOk(e) && AdvanceOk(e') && AgreeOn(snap, again, r)
    requires AdvanceRunning(r, Sighted(r, m, now), snap, now, e).row.Live()
    ensures var f := AdvanceRunning(r, Sighted(r, m, now), snap, now, e);
            && !f.machineGone && !f.runnerGone
            && Sighted(f.row, m, now) == f.row
            && AdvanceRunning(f.row, f.row, again, now, e') == Fate(f.row, false, false)
  {
    DestroysWholly(r, Sighted(r, m, now), now, e.destroy);
  }

  /** A row that comes through a working advance comes through the next one unchanged. */
  lemma AdvanceTwice(r: Row, pool: Pool, m: Option<Machine>, snap: Snapshot, again: Snapshot, now: int, e: AdvanceEnv,
                     e': AdvanceEnv)
    requires r.Live() && AdvanceOk(e) && AdvanceOk(e') && AgreeOn(snap, again, r)
    requires Lifecycle.Advance(r, pool, m, snap, now, e).row.Live()
    ensures var f := Lifecycle.Advance(r, pool, m, snap, now, e);
            && !f.machineGone && !f.runnerGone
            && (r.providerId != "" ==> m.Some? && Sighted(f.row, m.value, now) == f.row)
            && Lifecycle.Advance(f.row, pool, m, again, now, e') == Fate(f.row, false, false)
  {
    DestroysWholly(r, r, now, e.destroy);
    AdvanceIsSound(r, pool, m, snap, now, e);
    if m.Some? && r.providerId != "" {
      var up := Sighted(r, m.value, now);
      DestroysWholly(r, up, now, e.destroy);
      DestroysWholly(AfterCapture(r, up, e), up, now, e.destroy);
      if m.value.state == Running || m.value.state == Creating {
        RunningTwice(r, m.value, snap, again, now, e, e');
      }
    }
  }

  /** A row that a launch has just written. */
  lemma AdvanceFresh(r: Row, pool: Pool, m: Machine, snap: Snapshot, now: int, e: AdvanceEnv)
    requires r.Live() && AdvanceOk(e) && snap.Listed? && r.state == Booting && r.providerId != ""
    requires r.createdAt == now && pool.maxLifetimeSec >= 0 && r.readyAt.None? && r.claimedAt.None?
    requires m.state == Running || m.state == Creating
    requires r.runnerId != "" && r.runnerId in snap.runners ==>
      !snap.runners[r.runnerId].busy && !snap.runners[r.runnerId].online
    ensures Lifecycle.Advance(r, pool, Some(m), snap, now, e) == Fate(Sighted(r, m, now), false, false)
  {
  }

  // ---- a pass that removes nothing ----

  /** The row as an advance leaves it that only takes note of its machine being up. */
  function Noted(w: World, pool: Pool, n: string): Row
    requires n in w.rows
  {
    var m := MachineFor(w, pool, w.rows[n]);
    if m.Some? then Sighted(w.rows[n], m.value, w.now) else w.rows[n]
  }

  ghost predicate Gentle(w: World, pool: Pool, snap: Snapshot, n: string) {
    && LiveRow(w, n)
    && forall e :: AdvanceOk(e) ==>
         Lifecycle.Advance(w.rows[n], pool, MachineFor(w, pool, w.rows[n]), snap, w.now, e)
           == Fate(Noted(w, pool, n), false, false)
  }

  function NotedRows(w: World, pool: Pool, names: seq<string>): map<string, Row> {
    map n | n in w.rows :: if n in names then Noted(w, pool, n) else w.rows[n]
  }

  predicate AllWork(vs: seq<AdvanceVisit>) { forall v :: v in vs ==> AdvanceOk(v.e) }

  lemma {:induction false} GentlePass(w: World, pool: Pool, snap: Snapshot, vs: seq<AdvanceVisit>)
    requires Evidence.Distinct(VisitNames(vs)) && AllWork(vs)
    requires forall n :: n in VisitNames(vs) ==> Gentle(w, pool, snap, n)
    ensures AdvanceAll(w, pool, snap, vs) == w.(rows := NotedRows(w, pool, VisitNames(vs)))
  {
    if vs == [] {
      assert NotedRows(w, pool, []) == w.rows;
    } else {
      var before, v := vs[..|vs| - 1], vs[|vs| - 1];
      assert v in vs && forall x :: x in before ==> x in vs;
      assert VisitNames(vs) == VisitNames(before) + [v.name];
      Evidence.LastIsNew(VisitNames(before), v.name);
      assert v.name in VisitNames(vs) && forall n :: n in VisitNames(before) ==> n in VisitNames(vs);
      GentlePass(w, pool, snap, before);
      GentleVisit(w, pool, snap, VisitNames(before), v);
    }
  }

  lemma GentleVisit(w: World, pool: Pool, snap: Snapshot, before: seq<string>, v: AdvanceVisit)
    requires Gentle(w, pool, snap, v.name) && AdvanceOk(v.e) && v.name !in before
    ensures AdvanceOne(w.(rows := NotedRows(w, pool, before)), pool, snap, v) ==
            w.(rows := NotedRows(w, pool, before + [v.name]))
  {
    var u := w.(rows := NotedRows(w, pool, before));
    assert FateIn(u, pool, snap, v) == Fate(Noted(w, pool, v.name), false, false);
    assert u.rows[v.name := Noted(w, pool, v.name)] == NotedRows(w, pool, before + [v.name]);
  }

  // ---- a working pass ----

  lemma {:induction false} OthersLeaveAlone(
    w: World, p: nat, pool: Pool, snap: Snapshot, vs: seq<AdvanceVisit>, n: string)
    requires Inv(w) && p in w.pools && w.pools[p] == pool && RowsOfPool(w, p, vs)
    requires LiveIn(w, p, n) && n !in VisitNames(vs)
    ensures var u := AdvanceAll(w, pool, snap, vs);
            && LiveIn(u, p, n) && u.rows[n] == w.rows[n]
            && MachineFor(u, pool, w.rows[n]) == MachineFor(w, pool, w.rows[n])
  {
    if vs != [] {
      var before, v := vs[..|vs| - 1], vs[|vs| - 1];
      assert v in vs && forall x :: x in before ==> x in vs;
      assert VisitNames(vs) == VisitNames(before) + [v.name];
      OthersLeaveAlone(w, p, pool, snap, before, n);
      MidPass(w, p, pool, snap, before, v.name);
      AdvanceAllFrame(w, pool, snap, before);
      OtherVisit(AdvanceAll(w, pool, snap, before), p, pool, snap, v, n);
    }
  }

  lemma OtherVisit(u: World, p: nat, pool: Pool, snap: Snapshot, v: AdvanceVisit, n: string)
    requires Inv(u) && p in u.pools && u.pools[p] == pool && LiveIn(u, p, n) && v.name != n
    requires v.name in u.rows && u.rows[v.name].poolId == p
    ensures var u' := AdvanceOne(u, pool, snap, v);
            && LiveIn(u', p, n) && u'.rows[n] == u.rows[n]
            && MachineFor(u', pool, u.rows[n]) == MachineFor(u, pool, u.rows[n])
  {
    AdvanceOneFrame(u, pool, snap, v);
    if LiveRow(u, v.name) { OthersKeepTheirMachines(u, p, pool, snap, v, n); }
  }

  /** What a pass has done to a row that is live after it, by answers `e` in its own visit; it has the machine it had.
      */
  ghost predicate CameThrough(w: World, u: World, pool: Pool, snap: Snapshot, n: string, e: AdvanceEnv)
    requires n in w.rows
  {
    var m := MachineFor(w, pool, w.rows[n]);
    && AdvanceOk(e) && n in u.rows && Lifecycle.Advance(w.rows[n], pool, m, snap, w.now, e).row == u.rows[n]
    && MachineFor(u, pool, u.rows[n]) == m
  }

  lemma ThroughOwnVisit(w: World, p: nat, pool: Pool, snap: Snapshot, before: seq<AdvanceVisit>, v: AdvanceVisit)
    requires Inv(w) && p in w.pools && w.pools[p] == pool && RowsOfPool(w, p, before) && AdvanceOk(v.e)
    requires LiveIn(w, p, v.name) && v.name !in VisitNames(before)
    requires LiveRow(AdvanceOne(AdvanceAll(w, pool, snap, before), pool, snap, v), v.name)
    ensures CameThrough(w, AdvanceOne(AdvanceAll(w, pool, snap, before), pool, snap, v), pool, snap, v.name, v.e)
  {
    OthersLeaveAlone(w, p, pool, snap, before, v.name);
    AdvanceAllFrame(w, pool, snap, before);
    OwnVisitKeepsMachine(AdvanceAll(w, pool, snap, before), pool, snap, v);
  }

  lemma {:induction false} RowAfterPass(
    w: World, p: nat, pool: Pool, snap: Snapshot, vs: seq<AdvanceVisit>, n: string) returns (e: AdvanceEnv)
    requires Inv(w) && p in w.pools && w.pools[p] == pool && RowsOfPool(w, p, vs) && AllWork(vs)
    requires Evidence.Distinct(VisitNames(vs)) && n in VisitNames(vs) && LiveIn(w, p, n)
    requires LiveRow(AdvanceAll(w, pool, snap, vs), n)
    ensures CameThrough(w, AdvanceAll(w, pool, snap, vs), pool, snap, n, e)
  {
    var before, v := vs[..|vs| - 1], vs[|vs| - 1];
    assert v in vs && forall x :: x in before ==> x in vs;
    assert VisitNames(vs) == VisitNames(before) + [v.name] && vs == before + [v];
    Evidence.LastIsNew(VisitNames(before), v.name);
    if v.name == n {
      e := v.e;
      ThroughOwnVisit(w, p, pool, snap, before, v);
    } else {
      AdvanceOneFrame(AdvanceAll(w, pool, snap, before), pool, snap, v);
      e := RowAfterPass(w, p, pool, snap, before, n);
      LaterVisit(w, p, pool, snap, before, v, n);
    }
  }

  lemma LaterVisit(w: World, p: nat, pool: Pool, snap: Snapshot, before: seq<AdvanceVisit>, v: AdvanceVisit, n: string)
    requires Inv(w) && p in w.pools && w.pools[p] == pool && RowsOfPool(w, p, before + [v])
    requires LiveIn(w, p, n) && LiveRow(AdvanceAll(w, pool, snap, before), n) && v.name != n
    ensures var u := AdvanceAll(w, pool, snap, before); var u' := AdvanceOne(u, pool, snap, v);
            && LiveRow(u', n) && u'.rows[n] == u.rows[n]
            && MachineFor(u', pool, u'.rows[n]) == MachineFor(u, pool, u.rows[n])
  {
    assert v in before + [v] && forall x :: x in before ==> x in before + [v];
    MidPass(w, p, pool, snap, before, v.name);
    MidPass(w, p, pool, snap, before, n);
    OtherVisit(AdvanceAll(w, pool, snap, before), p, pool, snap, v, n);
  }

  lemma OwnVisitKeepsMachine(u: World, pool: Pool, snap: Snapshot, v: AdvanceVisit)
    requires LiveRow(u, v.name) && AdvanceOk(v.e) && LiveRow(AdvanceOne(u, pool, snap, v), v.name)
    ensures var r := u.rows[v.name]; var u' := AdvanceOne(u, pool, snap, v);
            MachineFor(u', pool, u'.rows[v.name]) == MachineFor(u, pool, r) && u'.machines == u.machines
            && u'.runners == u.runners
  {
    var r, m := u.rows[v.name], MachineFor(u, pool, u.rows[v.name]);
    AdvanceIsSound(r, pool, m, snap, u.now, v.e);
    LiveKeepsAll(r, pool, m, snap, u.now, v.e);
  }

  /** A working advance that leaves the row live removes nothing. */
  lemma LiveKeepsAll(r: Row, pool: Pool, m: Option<Machine>, snap: Snapshot, now: int, e: AdvanceEnv)
    requires r.Live() && AdvanceOk(e) && Lifecycle.Advance(r, pool, m, snap, now, e).row.Live()
    ensures var f := Lifecycle.Advance(r, pool, m, snap, now, e); !f.machineGone && !f.runnerGone
  {
    DestroysWholly(r, r, now, e.destroy);
    if m.Some? {
      var up := Sighted(r, m.value, now);
      DestroysWholly(r, up, now, e.destroy);
      DestroysWholly(AfterCapture(r, up, e), up, now, e.destroy);
    }
  }

  lemma VisitTakesItsOwn(u: World, pool: Pool, snap: Snapshot, v: AdvanceVisit, k: Rid)
    requires LiveRow(u, v.name) && AdvanceOk(v.e) && k in u.runners && k !in AdvanceOne(u, pool, snap, v).runners
    ensures u.rows[v.name].runnerId == k.id && !LiveRow(AdvanceOne(u, pool, snap, v), v.name)
  {
    if LiveRow(AdvanceOne(u, pool, snap, v), v.name) { OwnVisitKeepsMachine(u, pool, snap, v); }
  }

  /** A registration goes only with the row it belongs to. */
  lemma {:induction false} GoneWithItsRow(
    w: World, p: nat, pool: Pool, snap: Snapshot, vs: seq<AdvanceVisit>, k: Rid) returns (m: string)
    requires Evidence.Distinct(VisitNames(vs)) && AllWork(vs)
    requires forall n :: n in VisitNames(vs) ==> LiveIn(w, p, n)
    requires k in w.runners && k !in AdvanceAll(w, pool, snap, vs).runners
    ensures m in VisitNames(vs) && LiveIn(w, p, m) && w.rows[m].runnerId == k.id
    ensures !LiveRow(AdvanceAll(w, pool, snap, vs), m)
  {
    var before, v := vs[..|vs| - 1], vs[|vs| - 1];
    var u := AdvanceAll(w, pool, snap, before);
    assert v in vs && forall x :: x in before ==> x in vs;
    assert VisitNames(vs) == VisitNames(before) + [v.name];
    Evidence.LastIsNew(VisitNames(before), v.name);
    if k in u.runners {
      m := v.name;
      AdvanceAllFrame(w, pool, snap, before);
      assert v.name in VisitNames(vs) && u.rows[m] == w.rows[m];
      VisitTakesItsOwn(u, pool, snap, v, k);
    } else {
      assert forall n :: n in VisitNames(before) ==> n in VisitNames(vs);
      m := GoneWithItsRow(w, p, pool, snap, before, k);
      AdvanceOneFrame(u, pool, snap, v);
    }
  }

  // ---- what working launches add ----

  function LaunchedRow(p: nat, pool: Pool, t: Try, now: int): Row
    requires Works(t.e)
  {
    NewRow(p, pool, t.jobId, now).(state := Booting, runnerId := t.e.mint.handle, providerId := t.e.create.m.id)
  }

  function LaunchedMid(pool: Pool, t: Try): Mid
    requires Works(t.e)
  {
    Mid(pool.cloudId, t.e.create.m.id)
  }

  function LaunchedMachine(w: World, pool: Pool, t: Try): Machine
    requires Works(t.e)
  {
    Machine(t.name, t.e.create.m.state, if t.e.create.m.stamped then Some(w.now) else None,
            Owner(w.self, pool.name).Tags())
  }

  /** The world after one launch in which every call works. */
  function Launched(w: World, p: nat, pool: Pool, t: Try): World
    requires Works(t.e)
  {
    w.(rows := w.rows[t.name := LaunchedRow(p, pool, t, w.now)],
       machines := w.machines[LaunchedMid(pool, t) := LaunchedMachine(w, pool, t)],
       runners := w.runners[Rid(pool.forgeId, t.e.mint.rid) := Runner(t.name, false, false)],
       past := w.past.(issued := w.past.issued + {LaunchedMid(pool, t)}))
  }

  lemma LaunchOneIs(w: World, p: nat, pool: Pool, t: Try)
    requires Works(t.e)
    ensures LaunchOne(w, p, pool, t).0 == Launched(w, p, pool, t)
  {
    var row := NewRow(p, pool, t.jobId, w.now);
    var marked := row.(state := Provisioning, runnerId := t.e.mint.handle);
    RunsToMarked(w, t.name, pool, row, t.e);
    var wm := w.(rows := w.rows[t.name := marked],
                 runners := w.runners[Rid(pool.forgeId, t.e.mint.rid) := Runner(t.name, false, false)]);
    RunsFromMarked(wm, Launch(t.name, pool, marked, Marked), t.e);
    assert w.rows[t.name := marked][t.name := LaunchedRow(p, pool, t, w.now)] ==
           w.rows[t.name := LaunchedRow(p, pool, t, w.now)];
  }

  lemma RunsFromMarked(w: World, l: Launch, e: LaunchEnv)
    requires l.stage.Marked? && Works(e)
    ensures var k := Mid(l.pool.cloudId, e.create.m.id);
            Run(w, l, e).0 ==
            w.(rows := w.rows[l.name := l.row.(state := Booting, providerId := e.create.m.id)],
               machines := w.machines[k := MachineOf(w, l, e.create.m)],
               past := w.past.(issued := w.past.issued + {k}))
  {
    var w1, l1 := Effect(w, l, e), Next(l, w.now, e);
    var w2, l2 := Effect(w1, l1, e), Next(l1, w.now, e);
    assert Run(w1, l1, e) == (w2, l2);
  }

  /** What the outside owes each launch: names and ids that are new; and here also that its machine comes up. */
  lemma TryGives(w: World, p: nat, pool: Pool, t: Try)
    requires Works(t.e) && Refinement.TryAllowed(w, p, pool, t)
    ensures FreshName(w, t.name) && LaunchedMid(pool, t) !in w.past.issued && t.e.create.m.id != ""
    ensures Rid(pool.forgeId, t.e.mint.rid) !in w.runners && t.e.mint.handle in {"", t.e.mint.rid}
  {
    var row := NewRow(p, pool, t.jobId, w.now);
    var w0, l0 := Begin(w, t.name, row, t.e), Begun(t.name, pool, row, t.e);
    assert Allowed(w0, l0, t.e);
    var w1, l1 := Effect(w0, l0, t.e), Next(l0, w.now, t.e);
    var w2, l2 := Effect(w1, l1, t.e), Next(l1, w.now, t.e);
    assert Refinement.AllowedThroughout(w1, l1, t.e);
    assert Refinement.AllowedThroughout(w2, l2, t.e) && l2.stage.Marked?;
  }

  predicate AllLaunch(ts: seq<Try>) { forall i :: 0 <= i < |ts| ==> Works(ts[i].e) }

  function TryNames(ts: seq<Try>): seq<string> { seq(|ts|, i requires 0 <= i < |ts| => ts[i].name) }

  /** The rows after the launches: what was there, and one new row each. */
  ghost predicate RowsAdded(w: World, u: World, p: nat, pool: Pool, ts: seq<Try>)
    requires AllLaunch(ts)
  {
    && Evidence.Distinct(TryNames(ts))
    && (forall n :: n in u.rows <==> n in w.rows || n in TryNames(ts))
    && (forall n :: n in w.rows ==> n !in TryNames(ts) && u.rows[n] == w.rows[n])
    && (forall i :: 0 <= i < |ts| ==> ts[i].name in u.rows && u.rows[ts[i].name] == LaunchedRow(p, pool, ts[i], w.now))
  }

  ghost predicate MachinesAdded(w: World, u: World, pool: Pool, ts: seq<Try>)
    requires AllLaunch(ts)
  {
    && u.machines.Keys <= u.past.issued
    && (forall k :: k in w.machines ==> k in u.machines && u.machines[k] == w.machines[k])
    && (forall i :: 0 <= i < |ts| ==>
          && ts[i].e.create.m.id != "" && LaunchedMid(pool, ts[i]) in u.machines
          && u.machines[LaunchedMid(pool, ts[i])] == LaunchedMachine(w, pool, ts[i]))
  }

  ghost predicate RunnersAdded(w: World, u: World, pool: Pool, ts: seq<Try>)
    requires AllLaunch(ts)
  {
    && (forall k :: k in w.runners ==> k in u.runners && u.runners[k] == w.runners[k])
    && (forall i :: 0 <= i < |ts| ==>
          var k := Rid(pool.forgeId, ts[i].e.mint.rid);
          && ts[i].e.mint.handle in {"", k.id}
          && k in u.runners && u.runners[k] == Runner(ts[i].name, false, false))
    && (forall k :: k in u.runners && k !in w.runners ==>
          k.forge == pool.forgeId && exists i :: 0 <= i < |ts| && ts[i].e.mint.rid == k.id)
  }

  lemma RowAdded(w: World, u: World, p: nat, pool: Pool, before: seq<Try>, t: Try)
    requires AllLaunch(before) && Works(t.e) && RowsAdded(w, u, p, pool, before) && FreshName(u, t.name)
             && u.now == w.now
    ensures AllLaunch(before + [t]) && RowsAdded(w, Launched(u, p, pool, t), p, pool, before + [t])
  {
    var ts := before + [t];
    assert TryNames(ts) == TryNames(before) + [t.name];
    assert forall i :: 0 <= i < |before| ==> TryNames(before)[i] == before[i].name;
    forall i, j | 0 <= i < j < |ts| ensures TryNames(ts)[i] != TryNames(ts)[j] {
      if j == |before| { assert TryNames(before)[i] in TryNames(before); }
    }
  }

  lemma MachineAdded(w: World, u: World, p: nat, pool: Pool, before: seq<Try>, t: Try)
    requires AllLaunch(before) && Works(t.e) && MachinesAdded(w, u, pool, before)
    requires LaunchedMid(pool, t) !in u.past.issued && t.e.create.m.id != "" && u.now == w.now && u.self == w.self
    ensures AllLaunch(before + [t]) && MachinesAdded(w, Launched(u, p, pool, t), pool, before + [t])
  {
  }

  lemma RunnerAdded(w: World, u: World, p: nat, pool: Pool, before: seq<Try>, t: Try)
    requires AllLaunch(before) && Works(t.e) && RunnersAdded(w, u, pool, before)
    requires Rid(pool.forgeId, t.e.mint.rid) !in u.runners && t.e.mint.handle in {"", t.e.mint.rid}
    ensures AllLaunch(before + [t]) && RunnersAdded(w, Launched(u, p, pool, t), pool, before + [t])
  {
    var ts, u' := before + [t], Launched(u, p, pool, t);
    forall k | k in u'.runners && k !in w.runners
      ensures k.forge == pool.forgeId && exists i :: 0 <= i < |ts| && ts[i].e.mint.rid == k.id
    {
      if k in u.runners {
        var i :| 0 <= i < |before| && before[i].e.mint.rid == k.id;
        assert ts[i] == before[i];
      } else {
        assert ts[|before|].e.mint.rid == k.id;
      }
    }
    forall i | 0 <= i < |ts|
      ensures var k := Rid(pool.forgeId, ts[i].e.mint.rid);
              ts[i].e.mint.handle in {"", k.id} && k in u'.runners && u'.runners[k] == Runner(ts[i].name, false, false)
    {
      if i < |before| { assert ts[i] == before[i]; }
    }
  }

  /** `u` is `w` with the launches of `ts` made, all of which worked. */
  ghost predicate Grown(w: World, u: World, p: nat, pool: Pool, ts: seq<Try>)
    requires AllLaunch(ts)
  {
    && u == w.(rows := u.rows, machines := u.machines, runners := u.runners, past := u.past)
    && u.past == w.past.(issued := u.past.issued)
    && RowsAdded(w, u, p, pool, ts) && MachinesAdded(w, u, pool, ts) && RunnersAdded(w, u, pool, ts)
  }

  lemma GrownOneMore(w: World, u: World, p: nat, pool: Pool, before: seq<Try>, t: Try)
    requires AllLaunch(before) && Works(t.e) && Grown(w, u, p, pool, before)
    requires FreshName(u, t.name) && LaunchedMid(pool, t) !in u.past.issued && t.e.create.m.id != ""
    requires Rid(pool.forgeId, t.e.mint.rid) !in u.runners && t.e.mint.handle in {"", t.e.mint.rid}
    ensures AllLaunch(before + [t]) && Grown(w, Launched(u, p, pool, t), p, pool, before + [t])
  {
    RowAdded(w, u, p, pool, before, t);
    MachineAdded(w, u, p, pool, before, t);
    RunnerAdded(w, u, p, pool, before, t);
  }

  lemma LastTryAdds(w: World, u: World, p: nat, pool: Pool, before: seq<Try>, t: Try)
    requires AllLaunch(before) && Works(t.e) && Grown(w, u, p, pool, before) && Refinement.TryAllowed(u, p, pool, t)
    ensures AllLaunch(before + [t]) && Grown(w, LaunchOne(u, p, pool, t).0, p, pool, before + [t])
  {
    TryGives(u, p, pool, t);
    LaunchOneIs(u, p, pool, t);
    GrownOneMore(w, u, p, pool, before, t);
  }

  lemma NothingGrown(w: World, p: nat, pool: Pool)
    requires w.machines.Keys <= w.past.issued
    ensures AllLaunch([]) && Grown(w, w, p, pool, [])
  {
    var none: seq<Try> := [];
    assert TryNames(none) == [];
  }

  lemma AllButLastLaunch(ts: seq<Try>)
    requires ts != [] && AllLaunch(ts)
    ensures ts == ts[..|ts| - 1] + [ts[|ts| - 1]] && AllLaunch(ts[..|ts| - 1]) && Works(ts[|ts| - 1].e)
  {
  }

  /** One try more, from any state that the tries before it have led to. */
  lemma AddsOneMore(w: World, u: World, p: nat, pool: Pool, before: seq<Try>, t: Try, ts: seq<Try>, u': World)
    requires ts == before + [t] && AllLaunch(before) && Works(t.e) && Grown(w, u, p, pool, before)
    requires Refinement.TryAllowed(u, p, pool, t) && u' == LaunchOne(u, p, pool, t).0
    ensures AllLaunch(ts) && Grown(w, u', p, pool, ts)
  {
    LastTryAdds(w, u, p, pool, before, t);
  }

  lemma {:induction false} LaunchAllAdds(w: World, p: nat, pool: Pool, ts: seq<Try>)
    requires AllLaunch(ts) && Refinement.TriesAllowed(w, p, pool, ts) && w.machines.Keys <= w.past.issued
    ensures Grown(w, LaunchAll(w, p, pool, ts), p, pool, ts)
  {
    if ts == [] {
      NothingGrown(w, p, pool);
    } else {
      var before, t := ts[..|ts| - 1], ts[|ts| - 1];
      AllButLastLaunch(ts);
      Refinement.FewerTries(w, p, pool, ts);
      LaunchAllAdds(w, p, pool, before);
      AddsOneMore(w, LaunchAll(w, p, pool, before), p, pool, before, t, ts, LaunchAll(w, p, pool, ts));
    }
  }

  // ---- when a pool is left without machines ----

  lemma LiveWhenGrown(w: World, u: World, p: nat, pool: Pool, ts: seq<Try>)
    requires AllLaunch(ts) && RowsAdded(w, u, p, pool, ts)
    ensures LiveNames(u, p) == LiveNames(w, p) + set n | n in TryNames(ts)
  {
    forall n | n in TryNames(ts) ensures n in LiveNames(u, p) {
      var i :| 0 <= i < |ts| && TryNames(ts)[i] == n;
      assert ts[i].name == n;
    }
  }

  /** With nothing idle, a plan launches nothing exactly when there is no room, or neither a job nor a machine to keep
      warm. */
  lemma EmptyPlanExactlyWhen(queue: seq<Scaling.Job>, room: nat, minIdle: int, queued: nat)
    ensures LaunchQueue(Scaling.PlanOf(queue, 0, room, minIdle, queued)) == [] <==>
              room == 0 || (queue == [] && minIdle <= 0)
  {
    var p := Scaling.PlanOf(queue, 0, room, minIdle, queued);
    assert |LaunchQueue(p)| == |p.forJobs| + p.warm;
  }

  lemma NothingToDecideExactlyWhen(
    mid: World, p: nat, pool: Pool, polled: seq<Scaling.Job>, hooked: seq<Scaling.Job>)
    requires p in mid.pools && mid.pools[p] == pool
    ensures LaunchQueue(Decision(mid, pool, polled, hooked, [])) == [] <==>
              pool.maxInstances <= 0 || (pool.minIdle <= 0 && Capacity.Waiting(mid, p, polled, hooked, []) == [])
  {
    assert RowsIn(mid, []) == [];
    EmptyPlanExactlyWhen(Capacity.Waiting(mid, p, polled, hooked, []), Max(pool.maxInstances, 0), pool.minIdle,
                         |Scaling.Matching(Scaling.Merged(polled, hooked), pool.labels)|);
  }

  /** A pass over pool `p` in which every call works: `mid` is the world after the advance half, `end` that after the
      launches. */
  ghost predicate WorkingPass(
    w: World, p: nat, vs: seq<AdvanceVisit>, mid: World, polled: seq<Scaling.Job>, hooked: seq<Scaling.Job>,
    order: seq<string>, ts: seq<Try>, end: World)
  {
    && p in w.pools && Enumerates(VisitNames(vs), LiveNames(w, p)) && AllWork(vs)
    && mid == AdvancePool(w, p, true, vs) && mid.pools == w.pools
    && Enumerates(order, LiveNames(mid, p)) && JobsFromForge(polled) && JobsFromForge(hooked)
    && AllLaunch(ts) && Launches.Follows(LaunchQueue(Decision(mid, w.pools[p], polled, hooked, order)), ts)
    && Refinement.TriesAllowed(mid, p, w.pools[p], ts)
    && end == LaunchAll(mid, p, w.pools[p], ts)
  }

  lemma WorkingPassGrows(
    w: World, p: nat, vs: seq<AdvanceVisit>, mid: World, polled: seq<Scaling.Job>, hooked: seq<Scaling.Job>,
    order: seq<string>, ts: seq<Try>, end: World)
    requires Inv(w) && WorkingPass(w, p, vs, mid, polled, hooked, order, ts, end)
    ensures Inv(mid) && Grown(mid, end, p, w.pools[p], ts)
    ensures |ts| == |LaunchQueue(Decision(mid, w.pools[p], polled, hooked, order))|
  {
    Accounting.AdvanceKeeps(w, p, true, vs);
    LaunchAllAdds(mid, p, w.pools[p], ts);
  }

  lemma LeftWhenGrown(mid: World, end: World, p: nat, pool: Pool, order: seq<string>, ts: seq<Try>,
                      polled: seq<Scaling.Job>, hooked: seq<Scaling.Job>)
    requires AllLaunch(ts) && RowsAdded(mid, end, p, pool, ts) && p in mid.pools && mid.pools[p] == pool
    requires Enumerates(order, LiveNames(mid, p))
    requires |ts| == |LaunchQueue(Decision(mid, pool, polled, hooked, order))|
    ensures LiveNames(end, p) == {} <==>
              && LiveNames(mid, p) == {}
              && (pool.maxInstances <= 0
                  || (pool.minIdle <= 0 && Capacity.Waiting(mid, p, polled, hooked, []) == []))
  {
    LiveWhenGrown(mid, end, p, pool, ts);
    NothingEnumerated(order, LiveNames(mid, p));
    var queue := LaunchQueue(Decision(mid, pool, polled, hooked, order));
    assert ts == [] <==> queue == [];
    var launched := set n | n in TryNames(ts);
    if ts == [] {
      assert TryNames(ts) == [];
      assert launched == {};
    } else {
      assert TryNames(ts)[0] in launched;
    }
    assert LiveNames(end, p) == LiveNames(mid, p) + launched;
    assert LiveNames(end, p) == {} <==> LiveNames(mid, p) == {} && ts == [];
    if LiveNames(mid, p) == {} {
      assert order == [];
      NothingToDecideExactlyWhen(mid, p, pool, polled, hooked);
    }
  }

  /** After a pass in which every call works a pool has no machine exactly when none came through the pass and it may
      have none or wants none: no job waits, and none is to be kept warm. */
  lemma LeftWithoutMachinesExactlyWhen(
    w: World, p: nat, vs: seq<AdvanceVisit>, mid: World, polled: seq<Scaling.Job>, hooked: seq<Scaling.Job>,
    order: seq<string>, ts: seq<Try>, end: World)
    requires Inv(w) && WorkingPass(w, p, vs, mid, polled, hooked, order, ts, end)
    ensures LiveNames(end, p) == {} <==>
              && LiveNames(mid, p) == {}
              && (w.pools[p].maxInstances <= 0
                  || (w.pools[p].minIdle <= 0 && Capacity.Waiting(mid, p, polled, hooked, []) == []))
  {
    WorkingPassGrows(w, p, vs, mid, polled, hooked, order, ts, end);
    LeftWhenGrown(mid, end, p, w.pools[p], order, ts, polled, hooked);
  }

  /** A pool whose object was deleted from the cluster, when the controller has made a pass over it and then the cluster
      makes one: it goes exactly when its cloud is the cluster's, no machine came through, and it may have none or wants
      none. The pass does not take it out of service first, so while it keeps machines warm it stays. */
  lemma DeletedPoolGoesExactlyWhen(
    w: World, p: nat, vs: seq<AdvanceVisit>, mid: World, polled: seq<Scaling.Job>, hooked: seq<Scaling.Job>,
    order: seq<string>, ts: seq<Try>, end: World, db: K8s.Db, m: K8s.Manifest, n: string)
    requires Inv(w) && WorkingPass(w, p, vs, mid, polled, hooked, order, ts, end)
    requires K8s.WellFormed(m) && n in db.pools && n !in m.pools && (n in db.busy <==> LiveNames(end, p) != {})
    ensures n !in K8s.Reconcile(db, m).pools <==>
              && (db.pools[n].cloud in m.clouds || K8s.ManagesPool(db, db.pools[n]))
              && LiveNames(mid, p) == {}
              && (w.pools[p].maxInstances <= 0
                  || (w.pools[p].minIdle <= 0 && Capacity.Waiting(mid, p, polled, hooked, []) == []))
  {
    LeftWithoutMachinesExactlyWhen(w, p, vs, mid, polled, hooked, order, ts, end);
    K8s.PoolAfter(db, m, n);
  }

  lemma NothingEnumerated(order: seq<string>, s: set<string>)
    requires Enumerates(order, s)
    ensures s == {} <==> order == []
  {
    if order != [] { assert order[0] in s; }
  }

  // ---- after a working pass every row stands still ----

  /** No two live rows of the pool share a registration, and what the launches minted is new to all of them. */
  ghost predicate OwnRunners(w: World, p: nat, ts: seq<Try>)
    requires AllLaunch(ts)
  {
    && (forall m, n :: LiveIn(w, p, m) && LiveIn(w, p, n) && w.rows[m].runnerId == w.rows[n].runnerId != "" ==> m == n)
    && (forall n, i :: LiveIn(w, p, n) && 0 <= i < |ts| ==> w.rows[n].runnerId != ts[i].e.mint.rid)
  }

  /** The machines that the launches made are up or coming up. */
  predicate ComeUp(ts: seq<Try>)
    requires AllLaunch(ts)
  {
    forall i :: 0 <= i < |ts| ==> ts[i].e.create.m.state in {Running, Creating}
  }

  lemma {:induction false} RunnersShrink(w: World, pool: Pool, snap: Snapshot, vs: seq<AdvanceVisit>, k: Rid)
    requires k in AdvanceAll(w, pool, snap, vs).runners
    ensures k in w.runners && AdvanceAll(w, pool, snap, vs).runners[k] == w.runners[k]
  {
    if vs != [] { RunnersShrink(w, pool, snap, vs[..|vs| - 1], k); }
  }

  /** The registration of a row that comes through the pass stays as it is, through the launches too. */
  lemma OwnRunnerStays(w: World, p: nat, pool: Pool, snap: Snapshot, vs: seq<AdvanceVisit>, ts: seq<Try>, end: World,
                       n: string)
    requires Evidence.Distinct(VisitNames(vs)) && AllWork(vs)
    requires forall m :: m in VisitNames(vs) ==> LiveIn(w, p, m)
    requires AllLaunch(ts) && OwnRunners(w, p, ts) && RunnersAdded(AdvanceAll(w, pool, snap, vs), end, pool, ts)
    requires LiveIn(w, p, n) && LiveRow(AdvanceAll(w, pool, snap, vs), n) && w.rows[n].runnerId != ""
    ensures var k := Rid(pool.forgeId, w.rows[n].runnerId);
            (k in w.runners <==> k in end.runners) && (k in w.runners ==> end.runners[k] == w.runners[k])
  {
    var u, k := AdvanceAll(w, pool, snap, vs), Rid(pool.forgeId, w.rows[n].runnerId);
    if k in w.runners && k !in u.runners {
      var _ := GoneWithItsRow(w, p, pool, snap, vs, k);
    }
    if k in u.runners { RunnersShrink(w, pool, snap, vs, k); }
  }

  /** What the next pass finds of a row that came through this one. */
  lemma SurvivorFacts(w: World, p: nat, pool: Pool, snap: Snapshot, vs: seq<AdvanceVisit>, ts: seq<Try>, end: World,
                      n: string) returns (e: AdvanceEnv)
    requires Inv(w) && p in w.pools && w.pools[p] == pool && RowsOfPool(w, p, vs) && AllWork(vs)
    requires Evidence.Distinct(VisitNames(vs)) && n in VisitNames(vs) && LiveIn(w, p, n)
    requires AllLaunch(ts) && Grown(AdvanceAll(w, pool, snap, vs), end, p, pool, ts)
    requires LiveRow(AdvanceAll(w, pool, snap, vs), n)
    ensures var m := MachineFor(w, pool, w.rows[n]);
            && AdvanceOk(e) && n in end.rows && end.now == w.now
            && end.rows[n] == Lifecycle.Advance(w.rows[n], pool, m, snap, w.now, e).row
            && (m.Some? ==> MachineFor(end, pool, end.rows[n]) == m)
            && (w.rows[n].providerId == "" ==> MachineFor(end, pool, end.rows[n]).None?)
  {
    var r, u := w.rows[n], AdvanceAll(w, pool, snap, vs);
    e := RowAfterPass(w, p, pool, snap, vs, n);
    AdvanceAllFrame(w, pool, snap, vs);
    AdvanceIsSound(r, pool, MachineFor(w, pool, r), snap, w.now, e);
  }

  /** A row that an advance has written and whose machine and registration are as they were. */
  lemma StillGentle(end: World, pool: Pool, snap: Snapshot, again: Snapshot, n: string, r: Row, m: Option<Machine>,
                    e: AdvanceEnv)
    requires r.Live() && AdvanceOk(e) && AgreeOn(snap, again, r) && LiveRow(end, n)
    requires end.rows[n] == Lifecycle.Advance(r, pool, m, snap, end.now, e).row
    requires m.Some? ==> MachineFor(end, pool, end.rows[n]) == m
    requires r.providerId == "" ==> m.None? && MachineFor(end, pool, end.rows[n]).None?
    ensures Gentle(end, pool, again, n)
  {
    AdvanceTwice(r, pool, m, snap, again, end.now, e, e);
    assert MachineFor(end, pool, end.rows[n]) == m && Noted(end, pool, n) == end.rows[n];
    forall e' | AdvanceOk(e')
      ensures Lifecycle.Advance(end.rows[n], pool, m, again, end.now, e') == Fate(end.rows[n], false, false)
    {
      AdvanceTwice(r, pool, m, snap, again, end.now, e, e');
    }
  }

  /** Any row of the pool that is live after the pass, as the next pass finds it. */
  lemma SurvivorIsGentle(w: World, p: nat, pool: Pool, snap: Snapshot, vs: seq<AdvanceVisit>, ts: seq<Try>, end: World,
                         n: string)
    requires Inv(w) && p in w.pools && w.pools[p] == pool && RowsOfPool(w, p, vs) && AllWork(vs)
    requires Evidence.Distinct(VisitNames(vs)) && forall m :: m in VisitNames(vs) ==> LiveIn(w, p, m)
    requires AllLaunch(ts) && OwnRunners(w, p, ts) && snap == SnapshotOf(w, pool.forgeId, true)
    requires Grown(AdvanceAll(w, pool, snap, vs), end, p, pool, ts) && LiveRow(AdvanceAll(w, pool, snap, vs), n)
    requires n in VisitNames(vs)
    ensures Gentle(end, pool, SnapshotOf(end, pool.forgeId, true), n)
  {
    var e := SurvivorFacts(w, p, pool, snap, vs, ts, end, n);
    if w.rows[n].runnerId != "" { OwnRunnerStays(w, p, pool, snap, vs, ts, end, n); }
    SameReading(w, end, pool.forgeId, w.rows[n]);
    StillGentle(end, pool, snap, SnapshotOf(end, pool.forgeId, true), n, w.rows[n],
                MachineFor(w, pool, w.rows[n]), e);
  }

  lemma SameReading(w: World, end: World, forge: nat, r: Row)
    requires r.runnerId != "" ==>
               var k := Rid(forge, r.runnerId);
               (k in w.runners <==> k in end.runners) && (k in w.runners ==> end.runners[k] == w.runners[k])
    ensures AgreeOn(SnapshotOf(w, forge, true), SnapshotOf(end, forge, true), r)
  {
    var k := Rid(forge, r.runnerId);
    assert k in w.runners <==> r.runnerId in Registrations(w, forge);
    assert k in end.runners <==> r.runnerId in Registrations(end, forge);
  }

  lemma FreshIsGentle(end: World, pool: Pool, again: Snapshot, n: string, m: Machine)
    requires LiveRow(end, n) && MachineFor(end, pool, end.rows[n]) == Some(m) && m.state in {Running, Creating}
    requires var r := end.rows[n];
             && r.state == Booting && r.providerId != "" && r.createdAt == end.now && r.readyAt.None?
                && r.claimedAt.None?
             && again.Listed?
             && (r.runnerId != "" && r.runnerId in again.runners ==>
                   !again.runners[r.runnerId].busy && !again.runners[r.runnerId].online)
    requires pool.maxLifetimeSec >= 0
    ensures Gentle(end, pool, again, n)
  {
    forall e | AdvanceOk(e)
      ensures Lifecycle.Advance(end.rows[n], pool, Some(m), again, end.now, e) ==
              Fate(Sighted(end.rows[n], m, end.now), false, false)
    {
      AdvanceFresh(end.rows[n], pool, m, again, end.now, e);
    }
  }

  lemma LaunchedFacts(mid: World, p: nat, pool: Pool, ts: seq<Try>, end: World, i: nat)
    requires AllLaunch(ts) && Grown(mid, end, p, pool, ts) && i < |ts|
    ensures var n := ts[i].name;
            && n in end.rows && end.rows[n] == LaunchedRow(p, pool, ts[i], end.now)
            && MachineFor(end, pool, end.rows[n]) == Some(LaunchedMachine(mid, pool, ts[i]))
            && (end.rows[n].runnerId != "" ==>
                  var k := Rid(pool.forgeId, end.rows[n].runnerId);
                  k in end.runners && end.runners[k] == Runner(n, false, false))
  {
  }

  lemma LaunchedIsGentle(mid: World, p: nat, pool: Pool, ts: seq<Try>, end: World, i: nat)
    requires AllLaunch(ts) && Grown(mid, end, p, pool, ts) && ComeUp(ts) && pool.maxLifetimeSec >= 0 && i < |ts|
    ensures Gentle(end, pool, SnapshotOf(end, pool.forgeId, true), ts[i].name)
  {
    LaunchedFacts(mid, p, pool, ts, end, i);
    ReadsFresh(end, pool.forgeId, end.rows[ts[i].name].runnerId, ts[i].name);
    FreshIsGentle(end, pool, SnapshotOf(end, pool.forgeId, true), ts[i].name, LaunchedMachine(mid, pool, ts[i]));
  }

  lemma ReadsFresh(w: World, forge: nat, id: string, name: string)
    requires id != "" ==> Rid(forge, id) in w.runners && w.runners[Rid(forge, id)] == Runner(name, false, false)
    ensures var snap := SnapshotOf(w, forge, true);
            snap.Listed? && (id != "" && id in snap.runners ==> !snap.runners[id].busy && !snap.runners[id].online)
  {
    if id != "" && id in Registrations(w, forge) { assert Registrations(w, forge)[id] == w.runners[Rid(forge, id)]; }
  }

  // ---- the passes after it ----

  /** Every live row of the pool is one that a working pass only takes note of. */
  ghost predicate Quiet(w: World, p: nat, pool: Pool) {
    forall n :: n in LiveNames(w, p) ==> Gentle(w, pool, SnapshotOf(w, pool.forgeId, true), n)
  }

  lemma NamesVisited(w: World, p: nat, vs: seq<AdvanceVisit>)
    requires Enumerates(VisitNames(vs), LiveNames(w, p))
    ensures RowsOfPool(w, p, vs) && Evidence.Distinct(VisitNames(vs))
    ensures forall n :: n in VisitNames(vs) <==> n in LiveNames(w, p)
    ensures forall n :: n in VisitNames(vs) ==> LiveIn(w, p, n)
  {
    Accounting.VisitsAreOfPool(w, p, vs);
    forall n | n in VisitNames(vs) ensures LiveIn(w, p, n) { assert n in LiveNames(w, p); }
  }

  /** The world as a quiet pass leaves it. */
  function AfterQuiet(w: World, p: nat, pool: Pool): World
    requires p in w.pools
  {
    var names := LiveNames(w, p);
    Witness(w, p, SnapshotOf(w, pool.forgeId, true))
      .(rows := map n | n in w.rows :: if n in names then Noted(w, pool, n) else w.rows[n])
  }

  lemma QuietPass(w: World, p: nat, pool: Pool, vs: seq<AdvanceVisit>)
    requires p in w.pools && w.pools[p] == pool && Quiet(w, p, pool)
    requires Enumerates(VisitNames(vs), LiveNames(w, p)) && AllWork(vs)
    ensures AdvancePool(w, p, true, vs) == AfterQuiet(w, p, pool)
  {
    var snap := SnapshotOf(w, pool.forgeId, true);
    var w1 := Witness(w, p, snap);
    NamesVisited(w, p, vs);
    forall n | n in VisitNames(vs) ensures Gentle(w1, pool, snap, n) { GentleIgnoresPast(w, w1, pool, snap, n); }
    GentlePass(w1, pool, snap, vs);
    assert NotedRows(w1, pool, VisitNames(vs)) == AfterQuiet(w, p, pool).rows;
  }

  lemma GentleIgnoresPast(w: World, w1: World, pool: Pool, snap: Snapshot, n: string)
    requires Gentle(w, pool, snap, n) && w1 == w.(past := w1.past)
    ensures Gentle(w1, pool, snap, n) && Noted(w1, pool, n) == Noted(w, pool, n)
  {
  }

  /** A noted row is quiet, and nothing more is to be noted about it. */
  lemma NotedIsQuiet(w: World, u: World, pool: Pool, snap: Snapshot, n: string)
    requires Gentle(w, pool, snap, n) && snap.Listed? && n in u.rows && u.rows[n] == Noted(w, pool, n)
    requires u == w.(rows := u.rows, past := u.past)
    ensures Gentle(u, pool, snap, n) && Noted(u, pool, n) == u.rows[n]
  {
    var r, m := w.rows[n], MachineFor(w, pool, w.rows[n]);
    var fine := AdvanceEnv(true, None, Ok, DestroyEnv(Ok, Ok, Ok, Ok));
    assert MachineFor(u, pool, u.rows[n]) == m;
    forall e | AdvanceOk(e)
      ensures Lifecycle.Advance(u.rows[n], pool, m, snap, u.now, e) == Fate(u.rows[n], false, false)
    {
      AdvanceTwice(r, pool, m, snap, snap, w.now, fine, e);
    }
  }

  /** After a quiet pass the next one is quiet too, and changes nothing at all. */
  lemma QuietStaysQuiet(w: World, p: nat, pool: Pool)
    requires p in w.pools && w.pools[p] == pool && Quiet(w, p, pool)
    ensures var u := AfterQuiet(w, p, pool);
            && LiveNames(u, p) == LiveNames(w, p) && Quiet(u, p, pool) && AfterQuiet(u, p, pool) == u
  {
    var u, snap := AfterQuiet(w, p, pool), SnapshotOf(w, pool.forgeId, true);
    assert LiveNames(u, p) == LiveNames(w, p);
    forall n | n in LiveNames(u, p) ensures Gentle(u, pool, snap, n) && Noted(u, pool, n) == u.rows[n] {
      NotedIsQuiet(w, u, pool, snap, n);
    }
    assert SnapshotOf(u, pool.forgeId, true) == snap;
    assert Witness(u, p, snap) == u;
    assert AfterQuiet(u, p, pool).rows == u.rows;
  }

  /** A working advance half over all live rows of the pool, of whose launches we know what `OwnRunners` and `ComeUp`
      say. */
  ghost predicate Passing(w: World, p: nat, pool: Pool, snap: Snapshot, vs: seq<AdvanceVisit>, ts: seq<Try>) {
    && Inv(w) && p in w.pools && w.pools[p] == pool && RowsOfPool(w, p, vs) && AllWork(vs)
    && Evidence.Distinct(VisitNames(vs)) && (forall m :: m in VisitNames(vs) <==> LiveIn(w, p, m))
    && snap == SnapshotOf(w, pool.forgeId, true)
    && AllLaunch(ts) && OwnRunners(w, p, ts) && ComeUp(ts) && pool.maxLifetimeSec >= 0
  }

  lemma PassedIsGentle(w: World, p: nat, pool: Pool, snap: Snapshot, vs: seq<AdvanceVisit>, ts: seq<Try>, end: World,
                       n: string)
    requires Passing(w, p, pool, snap, vs, ts) && Grown(AdvanceAll(w, pool, snap, vs), end, p, pool, ts)
    requires n in LiveNames(AdvanceAll(w, pool, snap, vs), p)
    ensures Gentle(end, pool, SnapshotOf(end, pool.forgeId, true), n)
  {
    CameFromTheStart(w, p, pool, snap, vs, n);
    SurvivorIsGentle(w, p, pool, snap, vs, ts, end, n);
  }

  lemma AddedIsGentle(mid: World, p: nat, pool: Pool, ts: seq<Try>, end: World, n: string)
    requires AllLaunch(ts) && Grown(mid, end, p, pool, ts) && ComeUp(ts) && pool.maxLifetimeSec >= 0
             && n in TryNames(ts)
    ensures Gentle(end, pool, SnapshotOf(end, pool.forgeId, true), n)
  {
    var i :| 0 <= i < |ts| && TryNames(ts)[i] == n;
    LaunchedIsGentle(mid, p, pool, ts, end, i);
  }

  lemma GrownIsQuiet(w: World, p: nat, pool: Pool, snap: Snapshot, vs: seq<AdvanceVisit>, mid: World, ts: seq<Try>,
                     end: World)
    requires Passing(w, p, pool, snap, vs, ts) && mid == AdvanceAll(w, pool, snap, vs)
    requires Grown(mid, end, p, pool, ts)
    requires forall n :: n in LiveNames(end, p) ==> n in LiveNames(mid, p) || n in TryNames(ts)
    ensures Quiet(end, p, pool)
  {
    forall n | n in LiveNames(end, p) ensures Gentle(end, pool, SnapshotOf(end, pool.forgeId, true), n) {
      if n in LiveNames(mid, p) {
        PassedIsGentle(w, p, pool, snap, vs, ts, end, n);
      } else {
        AddedIsGentle(mid, p, pool, ts, end, n);
      }
    }
  }

  lemma AllVisitedIsPassing(w: World, p: nat, pool: Pool, vs: seq<AdvanceVisit>, ts: seq<Try>)
    requires Inv(w) && p in w.pools && w.pools[p] == pool
    requires Enumerates(VisitNames(vs), LiveNames(w, p)) && AllWork(vs)
    requires AllLaunch(ts) && OwnRunners(w, p, ts) && ComeUp(ts) && pool.maxLifetimeSec >= 0
    ensures Passing(w, p, pool, SnapshotOf(w, pool.forgeId, true), vs, ts)
  {
    NamesVisited(w, p, vs);
  }

  lemma PastIsNotRead(w: World, w1: World, p: nat, forge: nat)
    requires w1 == w.(past := w1.past)
    ensures LiveNames(w1, p) == LiveNames(w, p) && SnapshotOf(w1, forge, true) == SnapshotOf(w, forge, true)
  {
    assert Registrations(w1, forge) == Registrations(w, forge);
  }

  lemma WorkingPassIsPassing(w: World, p: nat, pool: Pool, vs: seq<AdvanceVisit>, ts: seq<Try>)
    requires Inv(w) && p in w.pools && w.pools[p] == pool
    requires Enumerates(VisitNames(vs), LiveNames(w, p)) && AllWork(vs)
    requires AllLaunch(ts) && OwnRunners(w, p, ts) && ComeUp(ts) && pool.maxLifetimeSec >= 0
    ensures var snap := SnapshotOf(w, pool.forgeId, true); Passing(Witness(w, p, snap), p, pool, snap, vs, ts)
  {
    var snap := SnapshotOf(w, pool.forgeId, true);
    Accounting.WitnessKeeps(w, p, snap);
    PastIsNotRead(w, Witness(w, p, snap), p, pool.forgeId);
    SameRowsOwnRunners(w, Witness(w, p, snap), p, ts);
    AllVisitedIsPassing(Witness(w, p, snap), p, pool, vs, ts);
  }

  /** The pass leaves all rows of the pool quiet. */
  lemma WorkingPassQuiets(
    w: World, p: nat, vs: seq<AdvanceVisit>, mid: World, polled: seq<Scaling.Job>, hooked: seq<Scaling.Job>,
    order: seq<string>, ts: seq<Try>, end: World)
    requires Inv(w) && WorkingPass(w, p, vs, mid, polled, hooked, order, ts, end)
    requires OwnRunners(w, p, ts) && ComeUp(ts) && w.pools[p].maxLifetimeSec >= 0
    ensures Quiet(end, p, w.pools[p])
  {
    var snap := SnapshotOf(w, w.pools[p].forgeId, true);
    var w1 := Witness(w, p, snap);
    WorkingPassGrows(w, p, vs, mid, polled, hooked, order, ts, end);
    WorkingPassIsPassing(w, p, w.pools[p], vs, ts);
    LiveWhenGrown(mid, end, p, w.pools[p], ts);
    GrownIsQuiet(w1, p, w.pools[p], snap, vs, mid, ts, end);
  }

  lemma SameRowsOwnRunners(w: World, w1: World, p: nat, ts: seq<Try>)
    requires AllLaunch(ts) && OwnRunners(w, p, ts) && w1.rows == w.rows
    ensures OwnRunners(w1, p, ts)
  {
  }

  /** A row that is live after a pass was so before. */
  lemma CameFromTheStart(w: World, p: nat, pool: Pool, snap: Snapshot, vs: seq<AdvanceVisit>, n: string)
    requires n in LiveNames(AdvanceAll(w, pool, snap, vs), p) && forall m :: m in LiveNames(w, p) ==>
             m in VisitNames(vs)
    ensures n in VisitNames(vs)
  {
    AdvanceAllFrame(w, pool, snap, vs);
  }

  // ---- planning again ----

  /** Two rows that count the same for a plan. */
  predicate Alike(a: Row, b: Row) {
    a.Live() == b.Live() && Scaling.Spare(a) == Scaling.Spare(b) && a.jobId == b.jobId
  }

  lemma AlikePlans(maxInstances: int, minIdle: int, jobs: seq<Scaling.Job>, a: seq<Row>, b: seq<Row>)
    requires Scaling.CountLive(a) == Scaling.CountLive(b) && Scaling.CountSpare(a) == Scaling.CountSpare(b)
    requires Scaling.Covered(a) == Scaling.Covered(b)
    ensures Scaling.PlanFor(maxInstances, minIdle, jobs, a) == Scaling.PlanFor(maxInstances, minIdle, jobs, b)
  {
  }

  function SpareOf(w: World, names: set<string>): set<string> {
    set n | n in names && n in w.rows && Scaling.Spare(w.rows[n])
  }

  function LiveOf(w: World, names: set<string>): set<string> {
    set n | n in names && n in w.rows && w.rows[n].Live()
  }

  function BoundOf(w: World, names: set<string>): set<string> {
    set n | n in names && n in w.rows && w.rows[n].jobId != "" :: w.rows[n].jobId
  }

  function Elements(order: seq<string>): set<string> { set n | n in order }

  /** Counting rows in some order is counting names. */
  lemma {:induction false} CountsOfOrder(w: World, order: seq<string>)
    requires Evidence.Distinct(order) && forall n :: n in order ==> n in w.rows
    ensures Scaling.CountLive(RowsIn(w, order)) == |LiveOf(w, Elements(order))|
    ensures Scaling.CountSpare(RowsIn(w, order)) == |SpareOf(w, Elements(order))|
  {
    if order == [] {
      assert LiveOf(w, Elements(order)) == {} && SpareOf(w, Elements(order)) == {};
    } else {
      var before, n := order[..|order| - 1], order[|order| - 1];
      LastElement(w, before, n);
      assert order == before + [n] && n in order;
      CountsOfOrder(w, before);
      LiveOneMore(w, Elements(before), n);
      SpareOneMore(w, Elements(before), n);
      Scaling.CountsOneMore(RowsIn(w, before), w.rows[n]);
    }
  }

  lemma LastElement(w: World, before: seq<string>, n: string)
    requires Evidence.Distinct(before + [n]) && forall m :: m in before + [n] ==> m in w.rows
    ensures Evidence.Distinct(before) && n !in Elements(before) && n in w.rows && forall m :: m in before ==>
            m in w.rows
    ensures Elements(before + [n]) == Elements(before) + {n}
    ensures RowsIn(w, before + [n]) == RowsIn(w, before) + [w.rows[n]]
  {
    Evidence.LastIsNew(before, n);
    assert (before + [n])[..|before|] == before;
    assert n in before + [n];
  }

  lemma LiveOneMore(w: World, names: set<string>, n: string)
    requires n in w.rows && n !in names
    ensures |LiveOf(w, names + {n})| == |LiveOf(w, names)| + if w.rows[n].Live() then 1 else 0
  {
    assert LiveOf(w, names + {n}) == LiveOf(w, names) + if w.rows[n].Live() then {n} else {};
  }

  lemma SpareOneMore(w: World, names: set<string>, n: string)
    requires n in w.rows && n !in names
    ensures |SpareOf(w, names + {n})| == |SpareOf(w, names)| + if Scaling.Spare(w.rows[n]) then 1 else 0
  {
    assert SpareOf(w, names + {n}) == SpareOf(w, names) + if Scaling.Spare(w.rows[n]) then {n} else {};
  }

  lemma {:induction false} BoundOfOrder(w: World, order: seq<string>)
    requires forall n :: n in order ==> n in w.rows
    ensures Scaling.Covered(RowsIn(w, order)) == BoundOf(w, Elements(order))
  {
    RowsInNames(w, order);
    forall j | j in BoundOf(w, Elements(order)) ensures j in Scaling.Covered(RowsIn(w, order)) {
      var n :| n in order && w.rows[n].jobId == j;
      var i :| 0 <= i < |order| && order[i] == n;
      assert RowsIn(w, order)[i] == w.rows[n];
    }
  }

  /** Plans made from alike rows in whatever orders are the same. */
  lemma SamePlan(u: World, v: World, a: seq<string>, b: seq<string>, maxInstances: int, minIdle: int,
                 jobs: seq<Scaling.Job>)
    requires Evidence.Distinct(a) && Evidence.Distinct(b) && forall n :: n in a <==> n in b
    requires forall n :: n in a ==> n in u.rows && n in v.rows && Alike(u.rows[n], v.rows[n])
    ensures Scaling.PlanFor(maxInstances, minIdle, jobs, RowsIn(u, a)) ==
            Scaling.PlanFor(maxInstances, minIdle, jobs, RowsIn(v, b))
  {
    CountsOfOrder(u, a);
    CountsOfOrder(v, b);
    BoundOfOrder(u, a);
    BoundOfOrder(v, b);
    assert Elements(a) == Elements(b);
    assert LiveOf(u, Elements(a)) == LiveOf(v, Elements(b)) && SpareOf(u, Elements(a)) == SpareOf(v, Elements(b));
    assert BoundOf(u, Elements(a)) == BoundOf(v, Elements(b));
    AlikePlans(maxInstances, minIdle, jobs, RowsIn(u, a), RowsIn(v, b));
  }

  lemma {:induction false} RowsInJoin(w: World, a: seq<string>, b: seq<string>)
    ensures RowsIn(w, a + b) == RowsIn(w, a) + RowsIn(w, b)
    decreases |b|
  {
    if b == [] {
      assert a + b == a;
    } else {
      assert (a + b)[..|a + b| - 1] == a + b[..|b| - 1];
      RowsInJoin(w, a, b[..|b| - 1]);
    }
  }

  lemma {:induction false} RowsInSame(u: World, v: World, order: seq<string>)
    requires forall n :: n in order ==> n in u.rows && n in v.rows && u.rows[n] == v.rows[n]
    ensures RowsIn(u, order) == RowsIn(v, order)
  {
    if order != [] {
      assert order[|order| - 1] in order;
      RowsInSame(u, v, order[..|order| - 1]);
    }
  }

  lemma {:induction false} RowsInNames(w: World, order: seq<string>)
    requires forall n :: n in order ==> n in w.rows
    ensures RowsIn(w, order) == seq(|order|, i requires 0 <= i < |order| => w.rows[order[i]])
  {
    if order != [] {
      assert order[|order| - 1] in order;
      RowsInNames(w, order[..|order| - 1]);
    }
  }

  lemma JobsAreNamed(polled: seq<Scaling.Job>, hooked: seq<Scaling.Job>, labels: seq<string>)
    requires JobsFromForge(polled) && JobsFromForge(hooked)
    ensures Scaling.NamedJobs(Scaling.Matching(Scaling.Merged(polled, hooked), labels))
  {
    var merged := Scaling.Merged(polled, hooked);
    Scaling.MergeIsAUnion(polled, hooked);
    forall i | 0 <= i < |merged| ensures merged[i].id != "" { assert merged[i] in merged; }
    Scaling.MatchingKeeps(merged, labels);
  }

  /** The rows of the launches are what the plan adds. */
  lemma LaunchesAdd(mid: World, end: World, p: nat, pool: Pool, plan: Scaling.Plan, ts: seq<Try>)
    requires AllLaunch(ts) && RowsAdded(mid, end, p, pool, ts)
    requires Launches.Follows(LaunchQueue(plan), ts) && |ts| == |LaunchQueue(plan)|
    ensures Scaling.Adds(plan, RowsIn(end, TryNames(ts)))
  {
    RowsInNames(end, TryNames(ts));
    var added, queue := RowsIn(end, TryNames(ts)), LaunchQueue(plan);
    forall i | 0 <= i < |added|
      ensures added[i].state == Booting && added[i].jobId == if i < |plan.forJobs| then plan.forJobs[i].id else ""
    {
      assert added[i] == end.rows[ts[i].name] == LaunchedRow(p, pool, ts[i], mid.now);
      assert ts[i].jobId == queue[i];
    }
  }

  lemma OrderGrows(mid: World, end: World, p: nat, pool: Pool, order: seq<string>, ts: seq<Try>)
    requires AllLaunch(ts) && RowsAdded(mid, end, p, pool, ts) && Enumerates(order, LiveNames(mid, p))
    ensures Enumerates(order + TryNames(ts), LiveNames(end, p))
    ensures RowsIn(end, order + TryNames(ts)) == RowsIn(mid, order) + RowsIn(end, TryNames(ts))
  {
    LiveWhenGrown(mid, end, p, pool, ts);
    forall n | n in order ensures n in mid.rows && n in end.rows && end.rows[n] == mid.rows[n] {
      assert n in LiveNames(mid, p);
    }
    RowsInJoin(end, order, TryNames(ts));
    RowsInSame(mid, end, order);
    NamesAreNew(mid, end, p, pool, ts);
    JoinEnumerates(order, LiveNames(mid, p), TryNames(ts));
  }

  lemma JoinEnumerates(a: seq<string>, s: set<string>, b: seq<string>)
    requires Enumerates(a, s) && Evidence.Distinct(b) && forall n :: n in s ==> n !in b
    ensures Enumerates(a + b, s + set n | n in b)
  {
    var c := a + b;
    forall i, j | 0 <= i < j < |c| ensures c[i] != c[j] {
      if i < |a| <= j { assert c[i] in s && c[j] == b[j - |a|] && b[j - |a|] in b; }
    }
  }

  lemma NamesAreNew(mid: World, end: World, p: nat, pool: Pool, ts: seq<Try>)
    requires AllLaunch(ts) && RowsAdded(mid, end, p, pool, ts)
    ensures forall n :: n in LiveNames(mid, p) ==> n !in TryNames(ts)
  {
  }

  /** With the launches made, planning again for the same jobs launches nothing, in whatever order the rows are read and
      whatever has been noted about them. */
  lemma PlanIsMet(mid: World, end: World, u: World, p: nat, pool: Pool, polled: seq<Scaling.Job>,
                  hooked: seq<Scaling.Job>, order: seq<string>, ts: seq<Try>, again: seq<string>)
    requires AllLaunch(ts) && RowsAdded(mid, end, p, pool, ts) && Enumerates(order, LiveNames(mid, p))
    requires JobsFromForge(polled) && JobsFromForge(hooked)
    requires var queue := LaunchQueue(Decision(mid, pool, polled, hooked, order));
             Launches.Follows(queue, ts) && |ts| == |queue|
    requires Enumerates(again, LiveNames(end, p))
    requires forall n :: n in LiveNames(end, p) ==> n in u.rows && n in end.rows && Alike(u.rows[n], end.rows[n])
    ensures LaunchQueue(Decision(u, pool, polled, hooked, again)) == []
  {
    var jobs := Scaling.Matching(Scaling.Merged(polled, hooked), pool.labels);
    JobsAreNamed(polled, hooked, pool.labels);
    OrderGrows(mid, end, p, pool, order, ts);
    LaunchesAdd(mid, end, p, pool, Decision(mid, pool, polled, hooked, order), ts);
    Scaling.ReplanLaunchesNothing(pool.maxInstances, pool.minIdle, jobs, RowsIn(mid, order), RowsIn(end, TryNames(ts)));
    SamePlan(u, end, again, order + TryNames(ts), pool.maxInstances, pool.minIdle, jobs);
  }

  lemma NotedIsAlike(w: World, p: nat, pool: Pool)
    requires p in w.pools
    ensures var u := AfterQuiet(w, p, pool);
            forall n :: n in LiveNames(w, p) ==> n in u.rows && n in w.rows && Alike(u.rows[n], w.rows[n])
  {
  }

  /** The world stands still but for the controller: after a pass in which every call works the next such pass removes
      nothing and launches nothing. What is asked of the outside: no two machines of the pool have one registration
      between them, and the machines created do come up. */
  lemma SecondPassLaunchesNothing(
    w: World, p: nat, vs: seq<AdvanceVisit>, mid: World, polled: seq<Scaling.Job>, hooked: seq<Scaling.Job>,
    order: seq<string>, ts: seq<Try>, end: World, again: seq<AdvanceVisit>, order': seq<string>)
    requires Inv(w) && WorkingPass(w, p, vs, mid, polled, hooked, order, ts, end)
    requires OwnRunners(w, p, ts) && ComeUp(ts) && w.pools[p].maxLifetimeSec >= 0
    requires Enumerates(VisitNames(again), LiveNames(end, p)) && AllWork(again)
    requires p in end.pools ==> Enumerates(order', LiveNames(AdvancePool(end, p, true, again), p))
    ensures p in end.pools && end.pools[p] == w.pools[p]
    ensures var u := AdvancePool(end, p, true, again);
            && LiveNames(u, p) == LiveNames(end, p) && u.machines == end.machines && u.runners == end.runners
            && LaunchQueue(Decision(u, w.pools[p], polled, hooked, order')) == []
  {
    var pool := w.pools[p];
    WorkingPassGrows(w, p, vs, mid, polled, hooked, order, ts, end);
    WorkingPassQuiets(w, p, vs, mid, polled, hooked, order, ts, end);
    QuietPass(end, p, pool, again);
    QuietStaysQuiet(end, p, pool);
    NotedIsAlike(end, p, pool);
    PlanIsMet(mid, end, AfterQuiet(end, p, pool), p, pool, polled, hooked, order, ts, order');
  }

  /** And the pass after that changes nothing at all: the second one has noted when billing starts and which
      registrations were read, and that is all there was to note. */
  lemma ThirdPassChangesNothing(
    w: World, p: nat, vs: seq<AdvanceVisit>, mid: World, polled: seq<Scaling.Job>, hooked: seq<Scaling.Job>,
    order: seq<string>, ts: seq<Try>, end: World, again: seq<AdvanceVisit>, third: seq<AdvanceVisit>)
    requires Inv(w) && WorkingPass(w, p, vs, mid, polled, hooked, order, ts, end)
    requires OwnRunners(w, p, ts) && ComeUp(ts) && w.pools[p].maxLifetimeSec >= 0
    requires Enumerates(VisitNames(again), LiveNames(end, p)) && AllWork(again)
    requires Enumerates(VisitNames(third), LiveNames(end, p)) && AllWork(third)
    ensures p in end.pools && p in AdvancePool(end, p, true, again).pools
    ensures var u := AdvancePool(end, p, true, again); AdvancePool(u, p, true, third) == u
  {
    var pool := w.pools[p];
    WorkingPassGrows(w, p, vs, mid, polled, hooked, order, ts, end);
    WorkingPassQuiets(w, p, vs, mid, polled, hooked, order, ts, end);
    QuietPass(end, p, pool, again);
    QuietStaysQuiet(end, p, pool);
    QuietPass(AfterQuiet(end, p, pool), p, pool, third);
  }
}
