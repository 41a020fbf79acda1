/** No machine is ever lost sight of: the invariant of the whole system, over every run. */
module Accounting {
  import opened Types
  import opened Instances
  import opened Worlds
  import opened Launches
  import opened Passes
  import opened System
  import Lifecycle
  import Reaper
  import ReapPasses
  import WriteAhead

  /** The scaling pass works on an existing pool, and its launch in flight is consistent with the world. */
  ghost predicate PassOk(w: World, p: ScalePass) {
    && p.poolId in w.pools
    && (p.flight.Some? ==> InFlight(w, p.flight.value) && p.flight.value.row.poolId == p.poolId)
  }

  ghost predicate SysInv(s: Sys) {
    Inv(s.w) && (s.pass.Some? ==> PassOk(s.w, s.pass.value))
  }

  // ---- the outside world ----

  /** What the outside can do: time passes; machines go, change state, or appear under new ids without being ours;
      registrations change at will. */
  ghost predicate Drifts(w: World, w': World) {
    && w' == w.(machines := w'.machines, runners := w'.runners, now := w'.now, past := w'.past)
    && w'.past == w.past.(issued := w'.past.issued)
    && w.past.issued <= w'.past.issued && w'.machines.Keys <= w'.past.issued && w.now <= w'.now
    && forall k :: k in w'.machines ==>
         || (k in w.machines && w'.machines[k] == w.machines[k].(state := w'.machines[k].state))
         || (k !in w.past.issued && !Ours(w.self, w'.machines[k]))
  }

  lemma OutsideDrifts(w: World, o: Outside)
    requires MayHappen(w, o) && w.machines.Keys <= w.past.issued
    ensures Drifts(w, OutsideEffect(w, o))
  {
    if o.MachineChanges? { MachineDrifts(w, o.k, o.to); }
    if o.ForeignMachine? { ForeignDrifts(w, o.k, o.m); }
  }

  lemma MachineDrifts(w: World, k: Mid, to: Option<MachineState>)
    requires w.machines.Keys <= w.past.issued
    ensures Drifts(w, ChangeMachine(w, k, to))
  {
  }

  lemma ForeignDrifts(w: World, k: Mid, m: Machine)
    requires k !in w.past.issued && !Ours(w.self, m) && w.machines.Keys <= w.past.issued
    ensures Drifts(w, AddForeign(w, k, m))
  {
  }

  lemma DriftStillFits(w: World, w': World, name: string, r: Row)
    requires Drifts(w, w') && Fits(w, name, r)
    ensures Fits(w', name, r)
  {
  }

  lemma DriftKeepsInv(w: World, w': World)
    requires Inv(w) && Drifts(w, w')
    ensures Inv(w')
  {
    forall n | n in w'.rows ensures Fits(w', n, w'.rows[n]) { DriftStillFits(w, w', n, w.rows[n]); }
  }

  lemma DriftKeepsFlight(w: World, w': World, l: Launch)
    requires InFlight(w, l) && Drifts(w, w')
    ensures InFlight(w', l)
  {
  }

  lemma OutsideKeeps(s: Sys, o: Outside)
    requires SysInv(s) && MayHappen(s.w, o)
    ensures SysInv(s.(w := OutsideEffect(s.w, o)))
  {
    var w' := OutsideEffect(s.w, o);
    OutsideDrifts(s.w, o);
    DriftKeepsInv(s.w, w');
    if s.pass.Some? && s.pass.value.flight.Some? { DriftKeepsFlight(s.w, w', s.pass.value.flight.value); }
  }

  // ---- the passes ----

  lemma WitnessKeeps(w: World, poolId: nat, snap: Lifecycle.Snapshot)
    requires Inv(w) && poolId in w.pools
    ensures Inv(Lifecycle.Witness(w, poolId, snap))
  {
  }

  lemma VisitsAreOfPool(w: World, poolId: nat, vs: seq<AdvanceVisit>)
    requires Enumerates(VisitNames(vs), LiveNames(w, poolId))
    ensures RowsOfPool(w, poolId, vs)
  {
    forall v | v in vs ensures v.name in LiveNames(w, poolId) {
      var i :| 0 <= i < |vs| && vs[i] == v;
      assert VisitNames(vs)[i] == v.name;
    }
  }

  lemma AdvanceKeeps(w: World, poolId: nat, listed: bool, vs: seq<AdvanceVisit>)
    requires Inv(w) && poolId in w.pools && Enumerates(VisitNames(vs), LiveNames(w, poolId))
    ensures Inv(AdvancePool(w, poolId, listed, vs))
  {
    var snap := SnapshotOf(w, w.pools[poolId].forgeId, listed);
    WitnessKeeps(w, poolId, snap);
    VisitsAreOfPool(w, poolId, vs);
    AdvanceAllKeepsInv(Lifecycle.Witness(w, poolId, snap), poolId, w.pools[poolId], snap, vs);
  }

  lemma BeginKeeps(w: World, p: ScalePass, name: string, e: LaunchEnv)
    requires Inv(w) && PassOk(w, p) && p.queue != [] && FreshName(w, name)
    ensures SysInv(AfterBegin(w, p, name, e))
  {
    BeginKeepsInv(w, name, p.poolId, p.queue[0], e);
  }

  lemma ProceedKeeps(w: World, p: ScalePass, e: LaunchEnv)
    requires Inv(w) && PassOk(w, p) && p.flight.Some? && Allowed(w, p.flight.value, e)
    ensures SysInv(AfterProceed(w, p, e))
  {
    StepKeepsInv(w, p.flight.value, e);
    EffectFrame(w, p.flight.value, e);
    NextFrame(p.flight.value, w.now, e);
  }

  lemma ControlKeeps(s: Sys, c: Control)
    requires SysInv(s) && MayControl(s, c)
    ensures SysInv(AfterControl(s, c))
  {
    match c
    case Advance(poolId, listed, visits) => AdvanceKeeps(s.w, poolId, listed, visits);
    case Decide(_, _, _, _) =>
    case BeginLaunch(name, e) => BeginKeeps(s.w, s.pass.value, name, e);
    case Proceed(e) => ProceedKeeps(s.w, s.pass.value, e);
    case Crash =>
  }

  // ---- the reaper ----

  lemma SweepKeeps(s: Sys, w': World)
    requires SysInv(s) && Inv(w') && Reaper.Swept(s.w, w')
    ensures SysInv(s.(w := w'))
  {
    if s.pass.Some? && s.pass.value.flight.Some? {
      WriteAhead.SweptKeepsFlight(s.w, w', s.pass.value.flight.value);
    }
  }

  lemma SweepEffectKeeps(s: Sys, v: Sweep)
    requires SysInv(s)
    ensures Reaper.Swept(s.w, SweepEffect(s.w, v)) && SysInv(s.(w := SweepEffect(s.w, v)))
  {
    match v {
      case Clouds(vs) =>
        Reaper.ReapCloudsKeeps(s.w, vs);
        Reaper.CloudSweepKeepsInv(s.w, vs);
      case Forges(vs) =>
        Reaper.ReapForgesKeeps(s.w, vs);
        Reaper.ForgeSweepKeepsInv(s.w, vs);
      case Rows(vs) =>
        Reaper.RowSweepGuarantee(s.w, vs);
        Reaper.RowSweepKeepsInv(s.w, vs);
    }
    SweepKeeps(s, SweepEffect(s.w, v));
  }

  // ---- the operator ----

  lemma RemovePoolKeeps(w: World, poolId: nat, reply: Reply)
    requires Inv(w)
    ensures Inv(RemovePool(w, poolId, reply))
  {
    var w' := RemovePool(w, poolId, reply);
    if w' != w {
      forall n | n in w'.rows ensures Fits(w', n, w'.rows[n]) {
        PoolsDoNotMatter(w, w', n, w.rows[n]);
      }
    }
  }

  /** Fits looks at the row's own pool, and for a closed row not even at that one's settings. */
  lemma PoolsDoNotMatter(w: World, w': World, name: string, r: Row)
    requires Fits(w, name, r) && r.poolId in w'.pools
    requires w'.self == w.self && w'.machines == w.machines && w'.past.issued == w.past.issued
    requires r.Live() ==>
      w'.pools[r.poolId].name == w.pools[r.poolId].name && w'.pools[r.poolId].cloudId == w.pools[r.poolId].cloudId
    ensures Fits(w', name, r)
  {
  }

  lemma SavePoolKeeps(s: Sys, poolId: nat, pool: Pool)
    requires Inv(s.w) && MayOperate(s, SavePool(poolId, pool))
    ensures Inv(OperatorEffect(s.w, SavePool(poolId, pool)))
  {
    var w' := s.w.(pools := s.w.pools[poolId := pool]);
    forall n | n in w'.rows ensures Fits(w', n, w'.rows[n]) {
      assert Fits(s.w, n, s.w.rows[n]);
      assert s.w.rows[n].poolId == poolId && s.w.rows[n].Live() ==> n in LiveNames(s.w, poolId);
      PoolsDoNotMatter(s.w, w', n, s.w.rows[n]);
    }
  }

  lemma LoseRowsKeeps(w: World, names: set<string>)
    requires Inv(w)
    ensures Inv(DropRows(w, names))
  {
  }

  /** Clouds and forges come and go without touching what runs. */
  lemma ConfigureKeeps(s: Sys, a: Operator)
    requires Inv(s.w) && MayOperate(s, a) && (a.SaveCloud? || a.SaveForge? || a.DeleteCloud? || a.DeleteForge?)
    ensures Inv(OperatorEffect(s.w, a))
  {
    var w' := OperatorEffect(s.w, a);
    forall n | n in w'.rows ensures Fits(w', n, w'.rows[n]) { FitsIgnoresTables(s.w, w', n, s.w.rows[n]); }
  }

  // ---- every step, every run ----

  lemma OperatorKeeps(s: Sys, a: Operator)
    requires Inv(s.w) && MayOperate(s, a)
    ensures Inv(OperatorEffect(s.w, a))
  {
    match a
    case DestroyMachine(name, e) => DestroyInstanceKeepsInv(s.w, name, e);
    case DeletePool(poolId, reply) => RemovePoolKeeps(s.w, poolId, reply);
    case SavePool(poolId, pool) => SavePoolKeeps(s, poolId, pool);
    case LoseRows(names) => LoseRowsKeeps(s.w, names);
    case _ => ConfigureKeeps(s, a);
  }

  lemma StepKeepsSysInv(s: Sys, step: Step)
    requires SysInv(s) && Enabled(s, step)
    ensures SysInv(After(s, step))
  {
    match step
    case Env(o) => OutsideKeeps(s, o);
    case Ctl(c) => ControlKeeps(s, c);
    case Sweeping(v) => SweepEffectKeeps(s, v);
    case Op(a) => OperatorKeeps(s, a);
  }

  lemma InitialInv(s: Sys)
    requires Initial(s)
    ensures SysInv(s)
  {
  }

  lemma {:induction false} RunKeepsSysInv(ss: seq<Sys>, steps: seq<Step>, i: nat)
    requires IsRun(ss, steps) && SysInv(ss[0]) && i < |ss|
    ensures SysInv(ss[i])
  {
    if i > 0 {
      RunKeepsSysInv(ss, steps, i - 1);
      StepKeepsSysInv(ss[i - 1], steps[i - 1]);
    }
  }

  /** In every state of every run, whatever failed, crashed or came in between: a machine of ours has a live row of
      its name, or a closed row that never learned its id, or its row went away with the pool or the database. */
  lemma EveryMachineIsAccountedFor(ss: seq<Sys>, steps: seq<Step>, i: nat, k: Mid)
    requires IsRun(ss, steps) && Initial(ss[0]) && i < |ss|
    requires k in ss[i].w.machines && Ours(ss[i].w.self, ss[i].w.machines[k])
    ensures Accounted(ss[i].w, ss[i].w.machines[k])
  {
    InitialInv(ss[0]);
    RunKeepsSysInv(ss, steps, i);
    InvAccounts(ss[i].w);
  }

  /** From any state of any run, two flawless passes of the reaper leave no machine of ours without a live row on
      any configured cloud. */
  lemma TwoPassesCollectEveryLeak(ss: seq<Sys>, steps: seq<Step>, i: nat, p: ReapPasses.Pass, q: ReapPasses.Pass)
    requires IsRun(ss, steps) && Initial(ss[0]) && i < |ss|
    requires ReapPasses.Flawless(ss[i].w, p) && ReapPasses.Flawless(ReapPasses.Reap(ss[i].w, p), q)
    ensures var w := ReapPasses.Reap(ReapPasses.Reap(ss[i].w, p), q);
            forall k :: k in w.machines && Ours(w.self, w.machines[k]) && k.cloud in w.clouds ==>
              Reaper.Justified(w, w.machines[k])
  {
    InitialInv(ss[0]);
    RunKeepsSysInv(ss, steps, i);
    ReapPasses.TwoPassesSettle(ss[i].w, p, q);
  }
}
