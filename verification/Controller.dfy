/** The controller as it runs: passes over objects that are changed in place (internal/controller). Every method is
    proved to do to the world exactly what the functions of the other modules say; the answers of the outside are
    parameters, and loops take any answer and any order. */
module Controllers {
  import opened Types
  import opened Instances
  import opened Worlds
  import opened Launches
  import opened Passes
  import opened Stores
  import Lifecycle
  import Reaper
  import ReapPasses
  import Scaling
  import System
  import Wipes

  /** What the clouds and the forges hold, and the clock. */
  class Outside {
    var machines: map<Mid, Machine>
    var runners: map<Rid, Runner>
    var now: int
    ghost var past: Past

    constructor (now: int)
      ensures machines == map[] && runners == map[] && this.now == now && past == Past({}, {}, {})
    {
      machines, runners, this.now, past := map[], map[], now, Past({}, {}, {});
    }

    method Delete(k: Mid, reply: Reply)
      modifies this`machines
      ensures machines == if reply.Applied() then old(machines) - {k} else old(machines)
    {
      if reply.Applied() {
        machines := machines - {k};
      }
    }

    method Deprovision(k: Rid, reply: Reply)
      modifies this`runners
      ensures runners == if reply.Applied() then old(runners) - {k} else old(runners)
    {
      if reply.Applied() {
        runners := runners - {k};
      }
    }
  }

  class Controller {
    const id: string
    const db: Store
    const out: Outside

    constructor (id: string, db: Store, out: Outside)
      ensures this.id == id && this.db == db && this.out == out
    {
      this.id, this.db, this.out := id, db, out;
    }

    ghost function View(): World
      reads db, out
    {
      World(id, db.clouds, db.forges, db.pools, db.rows, out.machines, out.runners, out.now, out.past)
    }

    /** `inst` is a copy of a stored live row, apart from a first sighting of its machine. */
    ghost predicate Holds(inst: Instance)
      reads db, out, inst
    {
      inst.name in db.rows && Lifecycle.CopyOf(db.rows[inst.name], inst.AsRow(), out.now)
    }

    // ---- what a provider and a forge list ----

    method ListMachines(cloud: nat) returns (listing: map<string, Machine>)
      ensures listing == Reaper.Listing(View(), cloud)
    {
      listing := map k | k in out.machines && k.cloud == cloud && Owner(id, "").Matches(out.machines[k].tags) ::
        k.id := out.machines[k];
    }

    method ListRunners(forge: nat) returns (listing: map<string, Runner>)
      ensures listing == Lifecycle.Registrations(View(), forge)
    {
      listing := map k | k in out.runners && k.forge == forge :: k.id := out.runners[k];
    }

    // ---- lifecycle.go ----

    /** What was done to one machine: its row replaced, and the machine and the registration it names removed or not. */
    twostate predicate Brings(pool: Pool, name: string, f: Lifecycle.Fate)
      requires name in old(db.rows)
      reads db, out
    {
      var r := old(db.rows[name]);
      && db.rows == old(db.rows)[name := f.row]
      && out.machines == (if f.machineGone then old(out.machines) - {Mid(pool.cloudId, r.providerId)}
                          else old(out.machines))
      && out.runners == (if f.runnerGone then old(out.runners) - {Rid(pool.forgeId, r.runnerId)} else old(out.runners))
    }

    method Drain(inst: Instance, e: Lifecycle.DestroyEnv) returns (ok: bool)
      requires Holds(inst)
      modifies db`rows, inst
      ensures ok <==> !Lifecycle.DrainFails(old(inst.AsRow()), e)
      ensures inst.AsRow() == Lifecycle.Drained(old(inst.AsRow()), out.now)
      ensures db.rows == old(db.rows)[inst.name :=
                           if Lifecycle.NeedsDrain(old(inst.AsRow())) && e.drain.Applied() then inst.AsRow()
                           else old(db.rows[inst.name])]
    {
      assert db.rows == db.rows[inst.name := db.rows[inst.name]];
      if inst.state != Draining && inst.state != Deleted {
        db.SetState(inst, Draining, out.now, e.drain);
        if !e.drain.Ok? {
          return false;
        }
      }
      return true;
    }

    method Destroy(pool: Pool, inst: Instance, hasForge: bool, e: Lifecycle.DestroyEnv) returns (ok: bool)
      requires Holds(inst)
      modifies db`rows, out`machines, out`runners, inst
      ensures ok <==> Lifecycle.DestroySucceeds(old(inst.AsRow()), e)
      ensures Brings(pool, inst.name,
                     Lifecycle.Destroy(old(db.rows[inst.name]), old(inst.AsRow()), hasForge, out.now, e))
    {
      ok := Drain(inst, e);
      if !ok {
        return;
      }
      ok := Remove(pool, inst, hasForge, e);
      if !ok {
        return;
      }
      Close(inst, e.close);
      return e.close.Ok?;
    }

    /** The machine first, then its registration, whose failure does not matter. */
    method Remove(pool: Pool, inst: Instance, hasForge: bool, e: Lifecycle.DestroyEnv) returns (ok: bool)
      modifies out`machines, out`runners
      ensures ok <==> inst.providerId == "" || e.delete.Ok?
      ensures out.machines == if inst.providerId != "" && e.delete.Applied()
                              then old(out.machines) - {Mid(pool.cloudId, inst.providerId)} else old(out.machines)
      ensures out.runners == if ok && hasForge && inst.runnerId != "" && e.deprovision.Applied()
                             then old(out.runners) - {Rid(pool.forgeId, inst.runnerId)} else old(out.runners)
    {
      if inst.providerId != "" {
        out.Delete(Mid(pool.cloudId, inst.providerId), e.delete);
        if !e.delete.Ok? {
          return false;
        }
      }
      if hasForge && inst.runnerId != "" {
        out.Deprovision(Rid(pool.forgeId, inst.runnerId), e.deprovision);
      }
      return true;
    }

    /** Settles the bill, which is the last moment the lifetime is known, and closes the row. */
    method Close(inst: Instance, reply: Reply)
      modifies db`rows, inst
      ensures inst.AsRow() == Closed(old(inst.AsRow()), out.now)
      ensures db.rows == if reply.Applied() then old(db.rows)[inst.name := inst.AsRow()] else old(db.rows)
    {
      inst.Settle(out.now);
      db.SetState(inst, Deleted, out.now, reply);
    }

    method CaptureLogs(inst: Instance, logs: Option<Reply>)
      requires Holds(inst)
      modifies db`rows
      ensures db.rows == old(db.rows)[inst.name :=
                           if logs.Some? && logs.value.Applied() then inst.AsRow() else old(db.rows)[inst.name]]
    {
      assert db.rows == db.rows[inst.name := db.rows[inst.name]];
      if logs.Some? {
        db.Save(inst, logs.value);
      }
    }

    method Advance(pool: Pool, inst: Instance, snap: Lifecycle.Snapshot, e: Lifecycle.AdvanceEnv)
      requires inst.name in db.rows && db.rows[inst.name].Live() && inst.AsRow() == db.rows[inst.name]
      modifies db`rows, out`machines, out`runners, inst
      ensures Brings(pool, inst.name, FateIn(old(View()), pool, snap, AdvanceVisit(inst.name, e)))
    {
      assert db.rows == db.rows[inst.name := db.rows[inst.name]];
      if out.now - inst.createdAt > pool.MaxLifetime() {
        var _ := Destroy(pool, inst, true, e.destroy);
        return;
      }
      if inst.providerId == "" {
        if inst.state == Failed {
          var _ := Destroy(pool, inst, true, e.destroy);
        }
        return;
      }
      if !e.got {
        return;
      }
      var k := Mid(pool.cloudId, inst.providerId);
      if k !in out.machines {
        var _ := Destroy(pool, inst, true, e.destroy);
        return;
      }
      AdvanceFound(pool, inst, out.machines[k], snap, e);
    }

    /** The rest of advance: the provider knows the machine. */
    method AdvanceFound(pool: Pool, inst: Instance, m: Machine, snap: Lifecycle.Snapshot, e: Lifecycle.AdvanceEnv)
      requires inst.name in db.rows && db.rows[inst.name].Live() && inst.AsRow() == db.rows[inst.name]
      modifies db`rows, out`machines, out`runners, inst
      ensures Brings(pool, inst.name, Lifecycle.AdvanceUp(old(inst.AsRow()), m, snap, out.now, e))
    {
      if inst.activeAt == None && m.state == Running {
        inst.activeAt := Some(out.now);
      }
      assert inst.AsRow() == Lifecycle.Sighted(old(inst.AsRow()), m, out.now);
      match m.state {
        case Errored | Stopped =>
          CaptureLogs(inst, e.logs);
          var _ := Destroy(pool, inst, true, e.destroy);
        case Running | Creating =>
          AdvanceRunning(pool, inst, snap, e);
        case Gone =>
          var _ := Destroy(pool, inst, true, e.destroy);
      }
    }

    method AdvanceRunning(pool: Pool, inst: Instance, snap: Lifecycle.Snapshot, e: Lifecycle.AdvanceEnv)
      requires Holds(inst)
      modifies db`rows, out`machines, out`runners, inst
      ensures Brings(pool, inst.name,
                     Lifecycle.AdvanceRunning(old(db.rows[inst.name]), old(inst.AsRow()), snap, out.now, e))
    {
      if inst.runnerId == "" {
        db.Save(inst, e.save);
        return;
      }
      if snap.Untrusted? {
        db.Save(inst, e.save);
        return;
      }
      if inst.runnerId !in snap.runners {
        if inst.readyAt == None && inst.claimedAt == None {
          db.Save(inst, e.save);
          return;
        }
        var _ := Destroy(pool, inst, true, e.destroy);
        return;
      }
      var runner := snap.runners[inst.runnerId];
      if runner.busy && inst.state != Busy {
        db.SetState(inst, Busy, out.now, e.save);
      } else if !runner.busy && inst.state == Booting && runner.online {
        db.SetState(inst, Idle, out.now, e.save);
      } else {
        db.Save(inst, e.save);
      }
    }

    // ---- controller.go: launch ----

    /** `l` is where the launch that `inst` is the row of has got to. */
    ghost predicate At(inst: Instance, pool: Pool, l: Launch)
      reads inst
    {
      l.name == inst.name && l.pool == pool && l.row == inst.AsRow()
    }

    method Register(forge: nat, name: string, rid: string)
      modifies out`runners
      ensures out.runners == old(out.runners)[Rid(forge, rid) := Runner(name, false, false)]
    {
      out.runners := out.runners[Rid(forge, rid) := Runner(name, false, false)];
    }

    method Mint(pool: Pool, inst: Instance, ghost l: Launch, e: LaunchEnv) returns (ok: bool)
      requires At(inst, pool, l) && l.stage.Recorded?
      modifies out`runners, inst`runnerId
      ensures View() == Effect(old(View()), l, e) && At(inst, pool, Next(l, out.now, e))
      ensures ok <==> Next(l, out.now, e).stage.HasCredential?
      ensures !ok ==> Next(l, out.now, e).stage.Failing?
    {
      match e.mint {
        case Minted(handle, rid) =>
          Register(pool.forgeId, inst.name, rid);
          inst.runnerId := handle;
          return true;
        case MintFailed(left) =>
          if left.Some? {
            Register(pool.forgeId, inst.name, left.value);
          }
          return false;
      }
    }

    /** Saves the row in its next state; the effect of the stages that only save. */
    method Mark(pool: Pool, inst: Instance, ghost l: Launch, s: State, reply: Reply, ghost e: LaunchEnv)
      requires At(inst, pool, l) && SaveMade(l, e) == Some(reply) && Next(l, out.now, e).row == Stamp(l.row, s, out.now)
      modifies db`rows, inst
      ensures View() == Effect(old(View()), l, e) && At(inst, pool, Next(l, out.now, e))
    {
      NextFrame(l, out.now, e);
      db.SetState(inst, s, out.now, reply);
    }

    method Create(pool: Pool, inst: Instance, m: NewMachine)
      modifies out`machines, out`past
      ensures forall l :: At(inst, pool, l) ==> View() == AddMachine(old(View()), l, m)
    {
      var k := Mid(pool.cloudId, m.id);
      var stamp := if m.stamped then Some(out.now) else None;
      out.machines := out.machines[k := Machine(inst.name, m.state, stamp, Owner(id, pool.name).Tags())];
      out.past := out.past.(issued := out.past.issued + {k});
    }

    method Provision(pool: Pool, inst: Instance, ghost l: Launch, e: LaunchEnv) returns (ok: bool)
      requires At(inst, pool, l) && l.stage.Marked? && e.bootstrap
      modifies out`machines, out`past, inst`providerId
      ensures View() == Effect(old(View()), l, e) && At(inst, pool, Next(l, out.now, e))
      ensures ok <==> Next(l, out.now, e).stage.HasMachine?
      ensures !ok ==> Next(l, out.now, e).stage.RollingBack?
    {
      match e.create {
        case Created(m) =>
          Create(pool, inst, m);
          inst.providerId := m.id;
          return true;
        case CreateFailed(left) =>
          if left.Some? {
            Create(pool, inst, left.value);
          }
          return false;
      }
    }

    /** The launch goes wrong: the row is written Failed. */
    method Fail(pool: Pool, inst: Instance, ghost l: Launch, e: LaunchEnv)
      requires At(inst, pool, l) && l.stage.Failing?
      modifies db`rows, inst
      ensures View() == Run(old(View()), l, e).0
    {
      Mark(pool, inst, l, Failed, e.fail, e);
      assert Run(View(), Next(l, out.now, e), e) == (View(), Next(l, out.now, e));
    }

    /** Drops the registration of a launch whose machine could not be created. */
    method Rollback(pool: Pool, inst: Instance, ghost l: Launch, e: LaunchEnv)
      requires At(inst, pool, l) && l.stage.RollingBack?
      modifies out`runners
      ensures View() == Effect(old(View()), l, e) && At(inst, pool, Next(l, out.now, e))
    {
      out.Deprovision(Rid(pool.forgeId, inst.runnerId), e.rollback);
    }

    method LaunchMachine(poolId: nat, pool: Pool, t: Try) returns (ok: bool)
      modifies db`rows, out`machines, out`runners, out`past
      ensures ok <==> Works(t.e)
      ensures View() == LaunchOne(old(View()), poolId, pool, t).0
    {
      var e := t.e;
      var row := Row(poolId, Pending, "", "", t.jobId, pool.HourlyRate(), 0, 0.0, out.now, None, None, None, None,
                     None);
      var inst := new Instance(t.name, row);
      ghost var l := Begun(t.name, pool, inst.AsRow(), e);
      db.Save(inst, e.record);
      if !e.record.Ok? {
        return false;
      }
      ok := Minting(pool, inst, l, e);
    }

    /** launch from the credential on. */
    method Minting(pool: Pool, inst: Instance, ghost l: Launch, e: LaunchEnv) returns (ok: bool)
      requires At(inst, pool, l) && l.stage.Recorded?
      modifies db`rows, out`machines, out`runners, out`past, inst
      ensures ok <==> WorksFrom(Recorded, e)
      ensures View() == Run(old(View()), l, e).0
    {
      ghost var l1 := Next(l, out.now, e);
      ok := Mint(pool, inst, l, e);
      if !ok {
        Fail(pool, inst, l1, e);
        return false;
      }
      ghost var l2 := Next(l1, out.now, e);
      Mark(pool, inst, l1, Instances.Provisioning, e.mark, e);
      if !e.mark.Ok? {
        Fail(pool, inst, l2, e);
        return false;
      }
      ok := Provisioning(pool, inst, l2, e);
    }

    /** launch from the bootstrap on. */
    method Provisioning(pool: Pool, inst: Instance, ghost l: Launch, e: LaunchEnv) returns (ok: bool)
      requires At(inst, pool, l) && l.stage.Marked?
      modifies db`rows, out`machines, out`runners, out`past, inst
      ensures ok <==> WorksFrom(Marked, e)
      ensures View() == Run(old(View()), l, e).0
    {
      ghost var l1 := Next(l, out.now, e);
      if !e.bootstrap {
        Fail(pool, inst, l1, e);
        return false;
      }
      ok := Provision(pool, inst, l, e);
      ghost var l2 := Next(l1, out.now, e);
      if !ok {
        Rollback(pool, inst, l1, e);
        Fail(pool, inst, l2, e);
        return false;
      }
      Mark(pool, inst, l1, Instances.Booting, e.boot, e);
      if !e.boot.Ok? {
        Fail(pool, inst, l2, e);
        return false;
      }
      assert Run(View(), l2, e) == (View(), l2);
      return true;
    }

    // ---- controller.go: reconcilePool ----

    /** The copies from the `i`-th on are of live rows as they are stored. */
    ghost predicate Current(live: seq<Instance>, i: nat)
      reads db, live
    {
      forall j :: i <= j < |live| ==>
        live[j].name in db.rows && db.rows[live[j].name].Live() && live[j].AsRow() == db.rows[live[j].name]
    }

    method AdvanceNext(pool: Pool, live: seq<Instance>, i: nat, snap: Lifecycle.Snapshot, e: Lifecycle.AdvanceEnv)
      requires i < |live| && Current(live, i)
      requires forall j :: i < j < |live| ==> live[j].name != live[i].name
      modifies db`rows, out`machines, out`runners, live[i]
      ensures View() == AdvanceOne(old(View()), pool, snap, AdvanceVisit(live[i].name, e))
      ensures Current(live, i + 1)
    {
      Advance(pool, live[i], snap, e);
    }

    /** Advances every machine of the pool once, in some order, against one reading of the forge. */
    method AdvanceMachines(poolId: nat, pool: Pool, snap: Lifecycle.Snapshot) returns (ghost vs: seq<AdvanceVisit>)
      requires poolId in db.pools && db.pools[poolId] == pool
      modifies db`rows, out`machines, out`runners
      ensures Enumerates(VisitNames(vs), LiveNames(old(View()), poolId))
      ensures View() == AdvanceAll(old(View()), pool, snap, vs)
    {
      var live := db.LiveInstances(Some(poolId));
      ghost var before := View();
      vs := [];
      for i := 0 to |live|
        invariant |vs| == i && forall j :: 0 <= j < i ==> vs[j].name == live[j].name
        invariant View() == AdvanceAll(before, pool, snap, vs)
        invariant Current(live, i)
      {
        var e: Lifecycle.AdvanceEnv := *;
        AdvanceNext(pool, live, i, snap, e);
        ghost var v := AdvanceVisit(live[i].name, e);
        assert (vs + [v])[..i] == vs;
        vs := vs + [v];
      }
      assert VisitNames(vs) == Names(live);
    }

    /** One reading of the forge's registrations, shared by the whole pass. */
    method SnapshotRunners(forge: nat, listed: bool) returns (snap: Lifecycle.Snapshot)
      ensures snap == SnapshotOf(View(), forge, listed)
    {
      if !listed {
        return Lifecycle.Untrusted;
      }
      var runners := ListRunners(forge);
      return Lifecycle.Listed(runners);
    }

    /** The first `i` entries of the queue were launched. */
    ghost predicate Launched(before: World, poolId: nat, pool: Pool, queue: seq<string>, ts: seq<Try>, i: nat)
      reads db, out
    {
      && |ts| == i <= |queue|
      && (forall j :: 0 <= j < i ==> ts[j].jobId == queue[j] && Works(ts[j].e))
      && View() == LaunchAll(before, poolId, pool, ts)
    }

    /** The next launch of a queue, under any name and with any answers. */
    method LaunchNext(poolId: nat, pool: Pool, jobId: string,
                      ghost before: World, ghost queue: seq<string>, ghost ts: seq<Try>)
      returns (ok: bool, ghost ts': seq<Try>)
      requires Launched(before, poolId, pool, queue, ts, |ts|) && |ts| < |queue| && queue[|ts|] == jobId
      modifies db`rows, out`machines, out`runners, out`past
      ensures ok ==> Launched(before, poolId, pool, queue, ts', |ts| + 1)
      ensures !ok ==>
                && Follows(queue, ts') && ts' != [] && !Works(ts'[|ts'| - 1].e)
                && View() == LaunchAll(before, poolId, pool, ts')
    {
      var t: Try := *;
      t := t.(jobId := jobId);
      ok := LaunchMachine(poolId, pool, t);
      ts' := ts + [t];
      assert ts'[..|ts'| - 1] == ts;
    }

    /** Launches what was planned, the jobs first, and gives up at the first failure. */
    method LaunchPlan(poolId: nat, pool: Pool, plan: Scaling.Plan) returns (ok: bool, ghost ts: seq<Try>)
      modifies db`rows, out`machines, out`runners, out`past
      ensures Follows(System.LaunchQueue(plan), ts)
      ensures ok <==> forall i :: 0 <= i < |ts| ==> Works(ts[i].e)
      ensures View() == LaunchAll(old(View()), poolId, pool, ts)
    {
      ghost var before, queue := View(), System.LaunchQueue(plan);
      ts := [];
      for i := 0 to |plan.forJobs|
        invariant Launched(before, poolId, pool, queue, ts, i)
      {
        ok, ts := LaunchNext(poolId, pool, plan.forJobs[i].id, before, queue, ts);
        if !ok {
          return;
        }
      }
      for i := 0 to plan.warm
        invariant Launched(before, poolId, pool, queue, ts, |plan.forJobs| + i)
      {
        ok, ts := LaunchNext(poolId, pool, "", before, queue, ts);
        if !ok {
          return;
        }
      }
      ok := true;
    }

    /** The scaling half: plan against the live rows as they are now, then launch. */
    method ScalePool(poolId: nat, pool: Pool, polled: seq<Scaling.Job>, hooked: seq<Scaling.Job>)
      returns (ok: bool, ghost order: seq<string>, ghost ts: seq<Try>)
      requires poolId in db.pools && db.pools[poolId] == pool
      modifies db`rows, out`machines, out`runners, out`past
      ensures Enumerates(order, LiveNames(old(View()), poolId))
      ensures Follows(System.LaunchQueue(System.Decision(old(View()), pool, polled, hooked, order)), ts)
      ensures ok <==> forall i :: 0 <= i < |ts| ==> Works(ts[i].e)
      ensures View() == LaunchAll(old(View()), poolId, pool, ts)
    {
      var live := db.LiveInstances(Some(poolId));
      order := Names(live);
      var rows: seq<Row> := [];
      for i := 0 to |live|
        invariant rows == System.RowsIn(View(), order[..i])
      {
        assert order[i] in db.Live(Some(poolId));
        assert order[..i + 1][..i] == order[..i];
        rows := rows + [live[i].AsRow()];
      }
      assert order[..|live|] == order;
      var jobs := Scaling.MergeJobs(polled, hooked);
      jobs := Scaling.MatchingJobs(jobs, pool.labels);
      var plan := Scaling.PlanScale(pool.maxInstances, pool.minIdle, jobs, rows);
      ok, ts := LaunchPlan(poolId, pool, plan);
    }

    /** One pass over one pool. The answers: whether the clients could be built and the rows read, the forge listed
        and the rows read again; the demand polled from the forge, if that worked, and what webhooks announced. */
    method ReconcilePool(poolId: nat, resolved: bool, listed: bool, reread: bool,
                         demand: Option<seq<Scaling.Job>>, hooked: seq<Scaling.Job>)
      returns (ok: bool, ghost vs: seq<AdvanceVisit>, ghost order: seq<string>, ghost ts: seq<Try>)
      requires poolId in db.pools
      modifies db`rows, out`machines, out`runners, out`past
      ensures !resolved ==> !ok && View() == old(View())
      ensures resolved ==> Enumerates(VisitNames(vs), LiveNames(old(View()), poolId))
      ensures resolved && (!reread || demand.None?) ==> !ok && View() == AdvancePool(old(View()), poolId, listed, vs)
      ensures resolved && reread && demand.Some? ==>
                var pool, mid := old(db.pools[poolId]), AdvancePool(old(View()), poolId, listed, vs);
                && Enumerates(order, LiveNames(mid, poolId))
                && Follows(System.LaunchQueue(System.Decision(mid, pool, demand.value, hooked, order)), ts)
                && (ok <==> forall i :: 0 <= i < |ts| ==> Works(ts[i].e))
                && View() == LaunchAll(mid, poolId, pool, ts)
    {
      vs, order, ts := [], [], [];
      if !resolved {
        return false, vs, order, ts;
      }
      var pool := db.pools[poolId];
      var snap := SnapshotRunners(pool.forgeId, listed);
      out.past := Lifecycle.Witness(View(), poolId, snap).past;
      vs := AdvanceMachines(poolId, pool, snap);
      if !reread || demand.None? {
        return false, vs, order, ts;
      }
      ok, order, ts := ScalePool(poolId, pool, demand.value, hooked);
    }

    // ---- admin.go ----

    method DestroyInstance(name: string, e: OperatorEnv) returns (ok: bool)
      modifies db`rows, out`machines, out`runners
      ensures View() == Passes.DestroyInstance(old(View()), name, e)
      ensures ok <==> OperatorSucceeds(old(View()), name, e)
    {
      if !e.loaded || name !in db.rows {
        return false;
      }
      var inst := new Instance(name, db.rows[name]);
      if inst.state == Deleted {
        return true;
      }
      if inst.providerId == "" && inst.runnerId == "" {
        db.SetState(inst, Deleted, out.now, e.close);
        return e.close.Ok?;
      }
      if !e.lookup {
        return false;
      }
      if inst.poolId !in db.pools {
        db.SetState(inst, Deleted, out.now, e.close);
        return e.close.Ok?;
      }
      if !e.resolved {
        return false;
      }
      ok := Destroy(db.pools[inst.poolId], inst, e.forge, e.destroy);
    }

    // ---- store.go: DeletePool ----

    /** The pool's deletion as a step of the system: the names that lose their rows are noted as lost. */
    method DeletePool(poolId: nat, reply: Reply) returns (busy: bool)
      modifies db`rows, db`pools, out`past
      ensures busy <==> LiveNames(old(View()), poolId) != {}
      ensures View() == System.RemovePool(old(View()), poolId, reply)
    {
      ghost var lost := System.RowsOfPoolId(View(), poolId);
      assert db.Live(Some(poolId)) == LiveNames(View(), poolId);
      busy := db.DeletePool(poolId, reply);
      if !busy && reply.Applied() {
        out.past := out.past.(retired := out.past.retired + lost);
        assert lost * old(db.rows).Keys == lost;
      }
    }

    // ---- reap.go: machines ----

    /** The lifetime ceilings by pool name. */
    method Lifetimes() returns (lifetimes: map<string, int>)
      requires PoolsOk(View())
      ensures forall name :: Reaper.LifetimeOf(db.pools, name) ==
                if name in lifetimes then Some(lifetimes[name]) else None
    {
      var order := Enumerate(db.pools.Keys);
      lifetimes := map[];
      for i := 0 to |order|
        invariant forall j :: 0 <= j < i ==>
          db.pools[order[j]].name in lifetimes && lifetimes[db.pools[order[j]].name] == db.pools[order[j]].MaxLifetime()
        invariant forall name :: name in lifetimes ==> exists j :: 0 <= j < i && db.pools[order[j]].name == name
      {
        lifetimes := lifetimes[db.pools[order[i]].name := db.pools[order[i]].MaxLifetime()];
      }
      forall p | p in db.pools
        ensures db.pools[p].name in lifetimes && lifetimes[db.pools[p].name] == db.pools[p].MaxLifetime()
      {
        assert p in order;
      }
    }

    /** Decides the fate of one machine found in a cloud. */
    method ReapMachine(k: Mid, m: Machine, lifetimes: map<string, int>, v: Reaper.MachineVisit)
      requires forall name :: Reaper.LifetimeOf(db.pools, name) ==
                 if name in lifetimes then Some(lifetimes[name]) else None
      modifies db`rows, out`machines
      ensures View() == Reaper.ReapMachine(old(View()), k, m, v)
    {
      if !(NAME_PREFIX <= m.name) || !v.lookup {
        return;
      }
      var reap := false;
      if m.name !in db.rows || db.rows[m.name].state == Deleted {
        reap := true;
      } else {
        var pool := Tag(m.tags, TAG_POOL);
        if pool !in lifetimes {
          reap := true;
        } else if m.createdAt.Some? && out.now - m.createdAt.value > lifetimes[pool] {
          reap := true;
        }
      }
      if !reap {
        return;
      }
      out.Delete(k, v.delete);
      if !v.delete.Ok? {
        return;
      }
      if m.name in db.rows && db.rows[m.name].state != Deleted {
        var inst := new Instance(m.name, db.rows[m.name]);
        db.SetState(inst, Deleted, out.now, v.close);
      }
    }

    /** Visits every machine the provider lists for this deployment, in any order and with any answers. */
    method ReapListing(cloud: nat, lifetimes: map<string, int>) returns (ghost vs: seq<Reaper.MachineVisit>)
      requires forall name :: Reaper.LifetimeOf(db.pools, name) ==
                 if name in lifetimes then Some(lifetimes[name]) else None
      modifies db`rows, out`machines
      ensures Enumerates(Reaper.MachineIds(vs), Reaper.Listing(old(View()), cloud).Keys)
      ensures View() == Reaper.ReapListing(old(View()), cloud, Reaper.Listing(old(View()), cloud), vs)
    {
      ghost var before := View();
      var listing := ListMachines(cloud);
      var ids := Enumerate(listing.Keys);
      vs := [];
      for i := 0 to |ids|
        invariant |vs| == i && forall j :: 0 <= j < i ==> vs[j].id == ids[j]
        invariant View() == Reaper.ReapListing(before, cloud, listing, vs)
      {
        var v: Reaper.MachineVisit := *;
        v := v.(id := ids[i]);
        assert ids[i] in listing;
        ReapMachine(Mid(cloud, ids[i]), listing[ids[i]], lifetimes, v);
        assert (vs + [v])[..i] == vs;
        vs := vs + [v];
      }
      assert Reaper.MachineIds(vs) == ids;
    }

    /** Sweeps every configured cloud, enabled or not; a cloud that does not answer is skipped. */
    method ReapClouds() returns (ghost vs: seq<Reaper.CloudVisit>)
      requires PoolsOk(View())
      modifies db`rows, out`machines
      ensures Reaper.CloudPass(old(View()), vs)
      ensures View() == Reaper.ReapClouds(old(View()), vs)
    {
      ghost var before := View();
      var lifetimes := Lifetimes();
      var order := Enumerate(db.clouds.Keys);
      vs := [];
      for i := 0 to |order|
        invariant |vs| == i && forall j :: 0 <= j < i ==> vs[j].cloud == order[j]
        invariant View() == Reaper.ReapClouds(before, vs) && Reaper.ListingsVisited(before, vs)
      {
        var resolved: bool, listed: bool := *, *;
        ghost var ms: seq<Reaper.MachineVisit> := [];
        if resolved && listed {
          ms := ReapListing(order[i], lifetimes);
        }
        ghost var v := Reaper.CloudVisit(order[i], resolved, listed, ms);
        assert (vs + [v])[..i] == vs;
        vs := vs + [v];
      }
      assert Reaper.CloudIds(vs) == order;
    }

    // ---- reap.go: registrations ----

    method ReapRunner(k: Rid, r: Runner, v: Reaper.RunnerVisit)
      modifies out`runners
      ensures View() == Reaper.ReapRunner(old(View()), k, r, v)
    {
      if !(NAME_PREFIX <= r.name) || r.busy || !v.lookup {
        return;
      }
      if r.name in db.rows && db.rows[r.name].state != Deleted && db.rows[r.name].state != Failed {
        return;
      }
      out.Deprovision(k, v.deprovision);
    }

    /** The visit of the next registration, with any answers. */
    method ReapNextRunner(forge: nat, listing: map<string, Runner>, rid: string,
                          ghost before: World, ghost vs: seq<Reaper.RunnerVisit>)
      returns (ghost vs': seq<Reaper.RunnerVisit>)
      requires rid in listing && View() == Reaper.ReapRegistrations(before, forge, listing, vs)
      modifies out`runners
      ensures |vs'| == |vs| + 1 && vs'[..|vs|] == vs && vs'[|vs|].id == rid
      ensures View() == Reaper.ReapRegistrations(before, forge, listing, vs')
    {
      var v: Reaper.RunnerVisit := *;
      v := v.(id := rid);
      ReapRunner(Rid(forge, rid), listing[rid], v);
      vs' := vs + [v];
      assert vs'[..|vs|] == vs;
    }

    method ReapRegistrations(forge: nat) returns (ghost vs: seq<Reaper.RunnerVisit>)
      modifies out`runners
      ensures Enumerates(Reaper.RunnerIds(vs), Lifecycle.Registrations(old(View()), forge).Keys)
      ensures View() == Reaper.ReapRegistrations(old(View()), forge, Lifecycle.Registrations(old(View()), forge), vs)
    {
      ghost var before := View();
      var listing := ListRunners(forge);
      var ids := Enumerate(listing.Keys);
      vs := [];
      for i := 0 to |ids|
        invariant |vs| == i && forall j :: 0 <= j < i ==> vs[j].id == ids[j]
        invariant View() == Reaper.ReapRegistrations(before, forge, listing, vs)
      {
        assert ids[i] in listing;
        vs := ReapNextRunner(forge, listing, ids[i], before, vs);
      }
      assert Reaper.RunnerIds(vs) == ids;
    }

    /** A forge that does not answer is skipped. */
    method ReapNextForge(forge: nat, ghost before: World, ghost vs: seq<Reaper.ForgeVisit>)
      returns (ghost vs': seq<Reaper.ForgeVisit>)
      requires View() == Reaper.ReapForges(before, vs) && Reaper.RegistrationsVisited(before, vs)
      modifies out`runners
      ensures |vs'| == |vs| + 1 && vs'[..|vs|] == vs && vs'[|vs|].forge == forge
      ensures View() == Reaper.ReapForges(before, vs') && Reaper.RegistrationsVisited(before, vs')
    {
      var resolved: bool, listed: bool := *, *;
      ghost var rs: seq<Reaper.RunnerVisit> := [];
      if resolved && listed {
        rs := ReapRegistrations(forge);
      }
      vs' := vs + [Reaper.ForgeVisit(forge, resolved, listed, rs)];
      assert vs'[..|vs|] == vs;
    }

    method ReapForges() returns (ghost vs: seq<Reaper.ForgeVisit>)
      modifies out`runners
      ensures Reaper.ForgePass(old(View()), vs)
      ensures View() == Reaper.ReapForges(old(View()), vs)
    {
      ghost var before := View();
      var order := Enumerate(db.forges.Keys);
      vs := [];
      for i := 0 to |order|
        invariant |vs| == i && forall j :: 0 <= j < i ==> vs[j].forge == order[j]
        invariant View() == Reaper.ReapForges(before, vs) && Reaper.RegistrationsVisited(before, vs)
      {
        vs := ReapNextForge(order[i], before, vs);
      }
      assert Reaper.ForgeIds(vs) == order;
    }

    // ---- reap.go: rows ----

    method ReapRow(inst: Instance, v: Reaper.RowVisit)
      requires inst.name == v.name && inst.name in db.rows && db.rows[inst.name].Live()
               && inst.AsRow() == db.rows[inst.name]
      modifies db`rows, inst
      ensures View() == Reaper.ReapRow(old(View()), v)
    {
      if inst.poolId !in db.pools {
        db.SetState(inst, Deleted, out.now, v.close);
        return;
      }
      if inst.providerId == "" {
        if out.now - inst.createdAt > Reaper.GRACE {
          db.SetState(inst, Deleted, out.now, v.close);
        }
        return;
      }
      if !v.lookup || !v.resolved || !v.got {
        return;
      }
      if Mid(db.pools[inst.poolId].cloudId, inst.providerId) !in out.machines {
        db.SetState(inst, Deleted, out.now, v.close);
      }
    }

    method ReapNextRow(live: seq<Instance>, i: nat, v: Reaper.RowVisit)
      requires i < |live| && v.name == live[i].name && Current(live, i)
      requires forall j :: i < j < |live| ==> live[j].name != live[i].name
      modifies db`rows, live[i]
      ensures View() == Reaper.ReapRow(old(View()), v)
      ensures Current(live, i + 1)
    {
      ReapRow(live[i], v);
    }

    method ReapRows() returns (ghost vs: seq<Reaper.RowVisit>)
      modifies db`rows
      ensures Enumerates(Reaper.RowNames(vs), Reaper.AllLive(old(View())))
      ensures View() == Reaper.ReapRows(old(View()), vs)
    {
      ghost var before := View();
      var live := db.LiveInstances(None);
      vs := [];
      for i := 0 to |live|
        invariant |vs| == i && forall j :: 0 <= j < i ==> vs[j].name == live[j].name
        invariant View() == Reaper.ReapRows(before, vs)
        invariant Current(live, i)
      {
        var v: Reaper.RowVisit := *;
        v := v.(name := live[i].name);
        ReapNextRow(live, i, v);
        assert (vs + [v])[..i] == vs;
        vs := vs + [v];
      }
      assert Reaper.RowNames(vs) == Names(live);
    }

    /** The safety net: the three sweeps in order; each is skipped when its tables cannot be read. */
    method Reap(readClouds: bool, readForges: bool, readRows: bool) returns (ghost p: ReapPasses.Pass)
      requires PoolsOk(View())
      modifies db`rows, out`machines, out`runners
      ensures ReapPasses.Whole(old(View()), p)
      ensures View() == ReapPasses.Reap(old(View()), p)
      ensures p.clouds.Some? == readClouds && p.forges.Some? == readForges && p.rows.Some? == readRows
    {
      p := ReapPasses.Pass(None, None, None);
      if readClouds {
        ghost var clouds := ReapClouds();
        p := p.(clouds := Some(clouds));
      }
      if readForges {
        ghost var forges := ReapForges();
        p := p.(forges := Some(forges));
      }
      if readRows {
        ghost var rows := ReapRows();
        p := p.(rows := Some(rows));
      }
    }

    // ---- reap.go: DestroyAll ----

    method WipeMachine(k: Mid, m: Machine, v: Reaper.MachineVisit) returns (done: bool)
      modifies out`machines
      ensures View() == Wipes.WipeMachine(old(View()), k, m, v)
      ensures done <==> HasOurName(m.name) && v.delete.Ok?
    {
      if !(NAME_PREFIX <= m.name) {
        return false;
      }
      out.Delete(k, v.delete);
      return v.delete.Ok?;
    }

    method WipeNext(cloud: nat, listing: map<string, Machine>, mid: string, ghost before: World,
                    ghost vs: seq<Reaper.MachineVisit>)
      returns (done: bool, ghost vs': seq<Reaper.MachineVisit>)
      requires mid in listing && View() == Wipes.WipeListing(before, cloud, listing, vs)
      modifies out`machines
      ensures |vs'| == |vs| + 1 && vs'[..|vs|] == vs && vs'[|vs|].id == mid
      ensures View() == Wipes.WipeListing(before, cloud, listing, vs')
      ensures Wipes.CountedIn(listing, vs') == Wipes.CountedIn(listing, vs) + if done then 1 else 0
    {
      var v: Reaper.MachineVisit := *;
      v := v.(id := mid);
      done := WipeMachine(Mid(cloud, mid), listing[mid], v);
      vs' := vs + [v];
      assert vs'[..|vs|] == vs;
    }

    /** Deletes every machine one cloud lists for this deployment, in any order and with any answers. */
    method WipeListing(cloud: nat) returns (destroyed: nat, ghost vs: seq<Reaper.MachineVisit>)
      modifies out`machines
      ensures Enumerates(Reaper.MachineIds(vs), Reaper.Listing(old(View()), cloud).Keys)
      ensures View() == Wipes.WipeListing(old(View()), cloud, Reaper.Listing(old(View()), cloud), vs)
      ensures destroyed == Wipes.CountedIn(Reaper.Listing(old(View()), cloud), vs)
    {
      ghost var before := View();
      var listing := ListMachines(cloud);
      var ids := Enumerate(listing.Keys);
      destroyed, vs := 0, [];
      for i := 0 to |ids|
        invariant |vs| == i && forall j :: 0 <= j < i ==> vs[j].id == ids[j]
        invariant View() == Wipes.WipeListing(before, cloud, listing, vs)
        invariant destroyed == Wipes.CountedIn(listing, vs)
      {
        assert ids[i] in listing;
        var done: bool;
        done, vs := WipeNext(cloud, listing, ids[i], before, vs);
        destroyed := destroyed + if done then 1 else 0;
      }
      assert Reaper.MachineIds(vs) == ids;
    }

    /** A cloud that does not answer is skipped. */
    method WipeNextCloud(cloud: nat, ghost before: World, ghost vs: seq<Reaper.CloudVisit>)
      returns (destroyed: nat, ghost vs': seq<Reaper.CloudVisit>)
      requires View() == Wipes.WipeClouds(before, vs) && Wipes.WipesVisited(before, vs)
      modifies out`machines
      ensures |vs'| == |vs| + 1 && vs'[..|vs|] == vs && vs'[|vs|].cloud == cloud
      ensures View() == Wipes.WipeClouds(before, vs') && Wipes.WipesVisited(before, vs')
      ensures Wipes.Counted(before, vs') == Wipes.Counted(before, vs) + destroyed
    {
      var resolved: bool, listed: bool := *, *;
      destroyed := 0;
      ghost var ms: seq<Reaper.MachineVisit> := [];
      if resolved && listed {
        destroyed, ms := WipeListing(cloud);
      }
      vs' := vs + [Reaper.CloudVisit(cloud, resolved, listed, ms)];
      assert vs'[..|vs|] == vs;
    }

    method DestroyAll(read: bool) returns (destroyed: nat, ghost vs: seq<Reaper.CloudVisit>)
      modifies out`machines
      ensures !read ==> destroyed == 0 && View() == old(View())
      ensures read ==> Wipes.WipePass(old(View()), vs) && View() == Wipes.WipeClouds(old(View()), vs)
      ensures read ==> destroyed == Wipes.Counted(old(View()), vs)
    {
      destroyed, vs := 0, [];
      if !read {
        return 0, vs;
      }
      ghost var before := View();
      var order := Enumerate(db.clouds.Keys);
      for i := 0 to |order|
        invariant |vs| == i && forall j :: 0 <= j < i ==> vs[j].cloud == order[j]
        invariant View() == Wipes.WipeClouds(before, vs) && Wipes.WipesVisited(before, vs)
        invariant destroyed == Wipes.Counted(before, vs)
      {
        var n: nat;
        n, vs := WipeNextCloud(order[i], before, vs);
        destroyed := destroyed + n;
      }
      assert Reaper.CloudIds(vs) == order;
    }
  }
}
