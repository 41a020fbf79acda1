/** The controller, its reaper, its operator and the outside world as one transition system: Run in
    internal/controller/controller.go with the passes serial, except that reaper sweeps may fall between any two
    effects of a launch and a crash may fall anywhere. */
module System {
  import opened Types
  import opened Instances
  import opened Worlds
  import opened Launches
  import opened Passes
  import opened WriteAhead
  import Reaper
  import Scaling

  /** The scaling half of a reconcile pass under way: the job ids still to launch for, "" for a warm machine, and
      the launch in flight. */
  datatype ScalePass = ScalePass(poolId: nat, queue: seq<string>, flight: Option<Launch>)

  datatype Sys = Sys(w: World, pass: Option<ScalePass>)

  /** What happens outside: time passes, machines and registrations come, go and change. */
  datatype Outside =
    | Tick(d: nat)
    | MachineChanges(k: Mid, to: Option<MachineState>)
    | ForeignMachine(k: Mid, m: Machine)
    | RunnerChanges(rid: Rid, runner: Option<Runner>)

  /** What a reconcile pass does: the advance half, the scaling decision, the start of a launch, its next effect;
      or the process dies. */
  datatype Control =
    | Advance(poolId: nat, listed: bool, visits: seq<AdvanceVisit>)
    | Decide(poolId: nat, polled: seq<Scaling.Job>, hooked: seq<Scaling.Job>, order: seq<string>)
    | BeginLaunch(name: string, env: LaunchEnv)
    | Proceed(e: LaunchEnv)
    | Crash

  datatype Sweep =
    | Clouds(clouds: seq<Reaper.CloudVisit>)
    | Forges(forges: seq<Reaper.ForgeVisit>)
    | Rows(rows: seq<Reaper.RowVisit>)

  /** What an operator does: destroy a machine; save or delete a pool, a cloud or a forge; or restore a database
      without some rows. A cloud or a forge stands for the account behind it: added again after it was deleted, it is
      the same. */
  datatype Operator =
    | DestroyMachine(name: string, op: OperatorEnv)
    | DeletePool(poolId: nat, removed: Reply)
    | SavePool(poolId: nat, pool: Pool)
    | SaveCloud(cloud: nat, enabled: bool)
    | SaveForge(forge: nat, enabled: bool)
    | DeleteCloud(cloud: nat)
    | DeleteForge(forge: nat)
    | LoseRows(names: set<string>)

  datatype Step = Env(o: Outside) | Ctl(c: Control) | Sweeping(v: Sweep) | Op(a: Operator)

  // ---- effects ----

  function ChangeMachine(w: World, k: Mid, to: Option<MachineState>): World {
    if k !in w.machines then w
    else if to.None? then w.(machines := w.machines - {k})
    else w.(machines := w.machines[k := w.machines[k].(state := to.value)])
  }

  function AddForeign(w: World, k: Mid, m: Machine): World {
    w.(machines := w.machines[k := m], past := w.past.(issued := w.past.issued + {k}))
  }

  function ChangeRunner(w: World, k: Rid, to: Option<Runner>): World {
    w.(runners := if to.None? then w.runners - {k} else w.runners[k := to.value])
  }

  function RowsIn(w: World, order: seq<string>): seq<Row> {
    if order == [] then []
    else
      var n := order[|order| - 1];
      RowsIn(w, order[..|order| - 1]) + if n in w.rows then [w.rows[n]] else []
  }

  /** The scaling decision over the pool's live rows and the union of polled and announced demand. */
  function Decision(w: World, pool: Pool, polled: seq<Scaling.Job>, hooked: seq<Scaling.Job>,
                    order: seq<string>): Scaling.Plan
  {
    Scaling.PlanFor(pool.maxInstances, pool.minIdle,
                    Scaling.Matching(Scaling.Merged(polled, hooked), pool.labels), RowsIn(w, order))
  }

  /** What is to be launched, in order: one machine for each job of the plan, then the warm ones. */
  function LaunchQueue(p: Scaling.Plan): seq<string> {
    seq(|p.forJobs|, i requires 0 <= i < |p.forJobs| => p.forJobs[i].id) + seq(p.warm, _ => "")
  }

  function Scale(poolId: nat, queue: seq<string>): Option<ScalePass> {
    if queue == [] then None else Some(ScalePass(poolId, queue, None))
  }

  /** The pass after a launch has come to `l`: it goes on to the next machine, or gives up after a failure. */
  function PassAfter(p: ScalePass, l: Launch): Option<ScalePass> {
    match l.stage
    case Done(true) => Scale(p.poolId, p.queue)
    case Done(false) => None
    case _ => Some(p.(flight := Some(l)))
  }

  function RowsOfPoolId(w: World, poolId: nat): set<string> {
    set n | n in w.rows && w.rows[n].poolId == poolId
  }

  /** DeletePool: refused while any row of the pool is live; otherwise the pool goes together with its rows. */
  function RemovePool(w: World, poolId: nat, reply: Reply): World {
    if LiveNames(w, poolId) != {} || !reply.Applied() then w
    else DropRows(w, RowsOfPoolId(w, poolId)).(pools := w.pools - {poolId})
  }

  function DropRows(w: World, names: set<string>): World {
    w.(rows := w.rows - names, past := w.past.(retired := w.past.retired + (names * w.rows.Keys)))
  }

  function OutsideEffect(w: World, o: Outside): World {
    match o
    case Tick(d) => w.(now := w.now + d)
    case MachineChanges(k, to) => ChangeMachine(w, k, to)
    case ForeignMachine(k, m) => AddForeign(w, k, m)
    case RunnerChanges(k, to) => ChangeRunner(w, k, to)
  }

  function AfterBegin(w: World, p: ScalePass, name: string, e: LaunchEnv): Sys
    requires p.queue != [] && p.poolId in w.pools
  {
    var row := NewRow(p.poolId, w.pools[p.poolId], p.queue[0], w.now);
    Sys(Begin(w, name, row, e), PassAfter(p.(queue := p.queue[1..]), Begun(name, w.pools[p.poolId], row, e)))
  }

  function AfterProceed(w: World, p: ScalePass, e: LaunchEnv): Sys
    requires p.flight.Some?
  {
    Sys(Effect(w, p.flight.value, e), PassAfter(p.(flight := None), Next(p.flight.value, w.now, e)))
  }

  function AfterControl(s: Sys, c: Control): Sys
    requires MayControl(s, c)
  {
    match c
    case Advance(poolId, listed, visits) => s.(w := AdvancePool(s.w, poolId, listed, visits))
    case Decide(poolId, polled, hooked, order) =>
      s.(pass := Scale(poolId, LaunchQueue(Decision(s.w, s.w.pools[poolId], polled, hooked, order))))
    case BeginLaunch(name, e) => AfterBegin(s.w, s.pass.value, name, e)
    case Proceed(e) => AfterProceed(s.w, s.pass.value, e)
    case Crash => s.(pass := None)
  }

  ghost function SweepEffect(w: World, v: Sweep): World {
    match v
    case Clouds(vs) => Reaper.ReapClouds(w, vs)
    case Forges(vs) => Reaper.ReapForges(w, vs)
    case Rows(vs) => Reaper.ReapRows(w, vs)
  }

  function OperatorEffect(w: World, a: Operator): World {
    match a
    case DestroyMachine(name, e) => DestroyInstance(w, name, e)
    case DeletePool(poolId, reply) => RemovePool(w, poolId, reply)
    case SavePool(poolId, pool) => w.(pools := w.pools[poolId := pool])
    case SaveCloud(cloud, enabled) => w.(clouds := w.clouds[cloud := enabled])
    case SaveForge(forge, enabled) => w.(forges := w.forges[forge := enabled])
    case DeleteCloud(cloud) => w.(clouds := w.clouds - {cloud})
    case DeleteForge(forge) => w.(forges := w.forges - {forge})
    case LoseRows(names) => DropRows(w, names)
  }

  ghost function After(s: Sys, step: Step): Sys
    requires Enabled(s, step)
  {
    match step
    case Env(o) => s.(w := OutsideEffect(s.w, o))
    case Ctl(c) => AfterControl(s, c)
    case Sweeping(v) => s.(w := SweepEffect(s.w, v))
    case Op(a) => s.(w := OperatorEffect(s.w, a))
  }

  // ---- when a step may happen ----

  /** The pool is reconciled: it, its cloud and its forge are enabled. */
  predicate Serving(w: World, poolId: nat) {
    && poolId in w.pools && w.pools[poolId].enabled
    && w.pools[poolId].cloudId in w.clouds && w.clouds[w.pools[poolId].cloudId]
    && w.pools[poolId].forgeId in w.forges && w.forges[w.pools[poolId].forgeId]
  }

  /** Machines of ours are created by launches only, and ids are never used twice. */
  predicate MayHappen(w: World, o: Outside) {
    o.ForeignMachine? ==> o.k !in w.past.issued && !Ours(w.self, o.m)
  }

  predicate JobsFromForge(jobs: seq<Scaling.Job>) {
    Scaling.DistinctJobs(jobs) && Scaling.NamedJobs(jobs)
  }

  /** One reconcile pass at a time; generated names and ids are fresh; jobs come with distinct ids. */
  ghost predicate MayControl(s: Sys, c: Control) {
    match c
    case Advance(poolId, _, visits) =>
      s.pass.None? && Serving(s.w, poolId) && Enumerates(VisitNames(visits), LiveNames(s.w, poolId))
    case Decide(poolId, polled, hooked, order) =>
      && s.pass.None? && Serving(s.w, poolId)
      && JobsFromForge(polled) && JobsFromForge(hooked)
      && Enumerates(order, LiveNames(s.w, poolId))
    case BeginLaunch(name, _) =>
      && s.pass.Some? && s.pass.value.flight.None? && s.pass.value.queue != [] && s.pass.value.poolId in s.w.pools
      && FreshName(s.w, name)
    case Proceed(e) =>
      s.pass.Some? && s.pass.value.flight.Some? && Allowed(s.w, s.pass.value.flight.value, e)
    case Crash => true
  }

  /** An operator acts between passes; a pool keeps its name and cloud while it has live rows; a cloud or a forge that a
      pool uses cannot be deleted. */
  ghost predicate MayOperate(s: Sys, a: Operator) {
    && s.pass.None?
    && (a.DeleteCloud? ==> forall p :: p in s.w.pools ==> s.w.pools[p].cloudId != a.cloud)
    && (a.DeleteForge? ==> forall p :: p in s.w.pools ==> s.w.pools[p].forgeId != a.forge)
    && (a.SavePool? ==>
          && a.pool.cloudId in s.w.clouds && a.pool.forgeId in s.w.forges
          && (forall p :: p in s.w.pools && p != a.poolId ==> s.w.pools[p].name != a.pool.name)
          && (a.poolId in s.w.pools && LiveNames(s.w, a.poolId) != {} ==>
                a.pool.name == s.w.pools[a.poolId].name && a.pool.cloudId == s.w.pools[a.poolId].cloudId))
  }

  /** A sweep may come at any time. */
  ghost predicate Enabled(s: Sys, step: Step) {
    match step
    case Env(o) => MayHappen(s.w, o)
    case Ctl(c) => MayControl(s, c)
    case Sweeping(_) => true
    case Op(a) => MayOperate(s, a)
  }

  /** A sweep in the middle of a launch comes while the launch is young. */
  predicate Timely(s: Sys, step: Step) {
    step.Sweeping? && s.pass.Some? && s.pass.value.flight.Some? ==>
      var l := s.pass.value.flight.value; l.name in s.w.rows && Young(s.w, l) && MachineStands(s.w, l)
  }

  // ---- runs ----

  /** `ss` are the states a run of `steps` goes through. */
  ghost predicate IsRun(ss: seq<Sys>, steps: seq<Step>) {
    && |ss| == |steps| + 1
    && forall i :: 0 <= i < |steps| ==> Enabled(ss[i], steps[i]) && ss[i + 1] == After(ss[i], steps[i])
  }

  /** A deployment before its first pass: no rows, no machines of its own, nothing lost and nothing seen yet. */
  ghost predicate Initial(s: Sys) {
    && s.pass.None?
    && PoolsOk(s.w)
    && s.w.rows == map[]
    && (forall k :: k in s.w.machines ==> !Ours(s.w.self, s.w.machines[k]) && k in s.w.past.issued)
    && s.w.past.retired == {} && s.w.past.seen == {}
  }
}
