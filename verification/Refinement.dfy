/** The controller's methods only ever take steps of the transition system: what is proved of every run holds of the
    code. */
module Refinement {
  import opened Types
  import opened Worlds
  import opened Launches
  import opened Passes
  import opened System
  import Lifecycle
  import ReapPasses
  import Scaling

  // ---- taking several steps ----

  ghost predicate Reaches(s: Sys, steps: seq<Step>, s': Sys)
    decreases |steps|
  {
    if steps == [] then s' == s
    else Enabled(s, steps[0]) && Reaches(After(s, steps[0]), steps[1..], s')
  }

  lemma {:induction false} ReachesJoin(a: Sys, xs: seq<Step>, b: Sys, ys: seq<Step>, c: Sys)
    requires Reaches(a, xs, b) && Reaches(b, ys, c)
    ensures Reaches(a, xs + ys, c)
    decreases |xs|
  {
    if xs == [] {
      assert xs + ys == ys;
    } else {
      ReachesJoin(After(a, xs[0]), xs[1..], b, ys, c);
      assert (xs + ys)[1..] == xs[1..] + ys && (xs + ys)[0] == xs[0];
    }
  }

  /** A run can be continued by any steps that can be taken from its last state. */
  lemma {:induction false} RunGoesOn(ss: seq<Sys>, steps: seq<Step>, more: seq<Step>, s': Sys) returns (all: seq<Sys>)
    requires IsRun(ss, steps) && Reaches(ss[|ss| - 1], more, s')
    ensures IsRun(all, steps + more) && all[0] == ss[0] && all[|all| - 1] == s'
    decreases |more|
  {
    if more == [] {
      assert steps + more == steps;
      all := ss;
    } else {
      var next := After(ss[|ss| - 1], more[0]);
      OneMore(ss, steps, more[0]);
      all := RunGoesOn(ss + [next], steps + [more[0]], more[1..], s');
      assert steps + more == steps + [more[0]] + more[1..];
    }
  }

  lemma OneMore(ss: seq<Sys>, steps: seq<Step>, step: Step)
    requires IsRun(ss, steps) && Enabled(ss[|ss| - 1], step)
    ensures IsRun(ss + [After(ss[|ss| - 1], step)], steps + [step])
  {
  }

  // ---- a launch ----

  /** The environment keeps to its side at every step of the launch. */
  ghost predicate AllowedThroughout(w: World, l: Launch, e: LaunchEnv)
    decreases StepsLeft(l.stage)
  {
    l.stage.Done? || (Allowed(w, l, e) && AllowedThroughout(Effect(w, l, e), Next(l, w.now, e), e))
  }

  function Proceeding(l: Launch, now: int, e: LaunchEnv): seq<Step>
    decreases StepsLeft(l.stage)
  {
    if l.stage.Done? then [] else [Ctl(Proceed(e))] + Proceeding(Next(l, now, e), now, e)
  }

  lemma {:induction false} FlightReaches(w: World, p: ScalePass, l: Launch, e: LaunchEnv)
    requires !l.stage.Done? && AllowedThroughout(w, l, e)
    ensures var (w', l') := Run(w, l, e);
            Reaches(Sys(w, Some(p.(flight := Some(l)))), Proceeding(l, w.now, e),
                    Sys(w', PassAfter(p.(flight := None), l')))
    decreases StepsLeft(l.stage)
  {
    var w1, l1 := Effect(w, l, e), Next(l, w.now, e);
    var s := Sys(w, Some(p.(flight := Some(l))));
    assert MayControl(s, Proceed(e));
    assert Proceeding(l, w.now, e)[1..] == Proceeding(l1, w.now, e);
    if !l1.stage.Done? {
      FlightReaches(w1, p, l1, e);
      assert After(s, Ctl(Proceed(e))) == Sys(w1, Some(p.(flight := Some(l1))));
    }
  }

  ghost predicate TryAllowed(w: World, poolId: nat, pool: Pool, t: Try) {
    && FreshName(w, t.name)
    && AllowedThroughout(Begin(w, t.name, NewRow(poolId, pool, t.jobId, w.now), t.e),
                         Begun(t.name, pool, NewRow(poolId, pool, t.jobId, w.now), t.e), t.e)
  }

  function LaunchSteps(poolId: nat, pool: Pool, now: int, t: Try): seq<Step> {
    [Ctl(BeginLaunch(t.name, t.e))]
    + Proceeding(Begun(t.name, pool, NewRow(poolId, pool, t.jobId, now), t.e), now, t.e)
  }

  /** One launch of the code is one launch of the system, step for step. */
  lemma {:induction false} LaunchReaches(w: World, pool: Pool, p: ScalePass, t: Try)
    requires p.flight.None? && p.queue != [] && p.queue[0] == t.jobId && p.poolId in w.pools
             && w.pools[p.poolId] == pool
    requires TryAllowed(w, p.poolId, pool, t)
    ensures var (w', l') := LaunchOne(w, p.poolId, pool, t);
            Reaches(Sys(w, Some(p)), LaunchSteps(p.poolId, pool, w.now, t),
                    Sys(w', PassAfter(p.(queue := p.queue[1..]), l')))
  {
    var row := NewRow(p.poolId, pool, t.jobId, w.now);
    var w1, l1 := Begin(w, t.name, row, t.e), Begun(t.name, pool, row, t.e);
    var s, rest := Sys(w, Some(p)), p.(queue := p.queue[1..]);
    var step := Ctl(BeginLaunch(t.name, t.e));
    assert Enabled(s, step) && After(s, step) == Sys(w1, PassAfter(rest, l1));
    assert LaunchSteps(p.poolId, pool, w.now, t)[1..] == Proceeding(l1, w.now, t.e);
    if !l1.stage.Done? { FlightReaches(w1, rest, l1, t.e); }
  }

  // ---- the scaling half ----

  lemma {:induction false} RunKeepsPools(w: World, l: Launch, e: LaunchEnv)
    ensures Run(w, l, e).0.pools == w.pools && Run(w, l, e).0.now == w.now
    decreases StepsLeft(l.stage)
  {
    if !l.stage.Done? {
      EffectFrame(w, l, e);
      RunKeepsPools(Effect(w, l, e), Next(l, w.now, e), e);
    }
  }

  lemma {:induction false} LaunchAllKeepsPools(w: World, poolId: nat, pool: Pool, ts: seq<Try>)
    ensures LaunchAll(w, poolId, pool, ts).pools == w.pools && LaunchAll(w, poolId, pool, ts).now == w.now
  {
    if ts != [] {
      var u, t := LaunchAll(w, poolId, pool, ts[..|ts| - 1]), ts[|ts| - 1];
      LaunchAllKeepsPools(w, poolId, pool, ts[..|ts| - 1]);
      var row := NewRow(poolId, pool, t.jobId, u.now);
      RunKeepsPools(Begin(u, t.name, row, t.e), Begun(t.name, pool, row, t.e), t.e);
    }
  }

  ghost predicate TriesAllowed(w: World, poolId: nat, pool: Pool, ts: seq<Try>) {
    forall i :: 0 <= i < |ts| ==> TryAllowed(LaunchAll(w, poolId, pool, ts[..i]), poolId, pool, ts[i])
  }

  function QueueSteps(poolId: nat, pool: Pool, now: int, ts: seq<Try>): seq<Step> {
    if ts == [] then []
    else QueueSteps(poolId, pool, now, ts[..|ts| - 1]) + LaunchSteps(poolId, pool, now, ts[|ts| - 1])
  }

  /** The pass after the launches in `ts`, all of which worked except perhaps the last. */
  function PassLeft(poolId: nat, queue: seq<string>, ts: seq<Try>): Option<ScalePass>
    requires |ts| <= |queue|
  {
    if ts != [] && !Works(ts[|ts| - 1].e) then None else Scale(poolId, queue[|ts|..])
  }

  /** The queue up to some launch, then that launch. */
  lemma {:induction false} NextTryReaches(w: World, u: World, poolId: nat, pool: Pool, queue: seq<string>, k: nat,
                                          steps: seq<Step>, t: Try)
    requires k < |queue| && t.jobId == queue[k] && poolId in u.pools && u.pools[poolId] == pool
    requires Reaches(Sys(w, Scale(poolId, queue)), steps, Sys(u, Scale(poolId, queue[k..])))
    requires TryAllowed(u, poolId, pool, t)
    ensures Reaches(Sys(w, Scale(poolId, queue)), steps + LaunchSteps(poolId, pool, u.now, t),
                    Sys(LaunchOne(u, poolId, pool, t).0, if Works(t.e) then Scale(poolId, queue[k + 1..]) else None))
  {
    var rest := queue[k..];
    assert rest[0] == queue[k] && rest[1..] == queue[k + 1..];
    var p := ScalePass(poolId, rest, None);
    LaunchWorksExactly(u, poolId, pool, t);
    LaunchReaches(u, pool, p, t);
    ReachesJoin(Sys(w, Scale(poolId, queue)), steps, Sys(u, Some(p)), LaunchSteps(poolId, pool, u.now, t),
                Sys(LaunchOne(u, poolId, pool, t).0,
                    PassAfter(p.(queue := rest[1..]), LaunchOne(u, poolId, pool, t).1)));
  }

  lemma {:induction false} QueueReaches(w: World, poolId: nat, pool: Pool, queue: seq<string>, ts: seq<Try>)
    requires poolId in w.pools && w.pools[poolId] == pool && TriesAllowed(w, poolId, pool, ts)
    requires |ts| <= |queue| && forall i :: 0 <= i < |ts| ==> ts[i].jobId == queue[i]
    requires forall i :: 0 <= i < |ts| - 1 ==> Works(ts[i].e)
    ensures Reaches(Sys(w, Scale(poolId, queue)), QueueSteps(poolId, pool, w.now, ts),
                    Sys(LaunchAll(w, poolId, pool, ts), PassLeft(poolId, queue, ts)))
  {
    if ts == [] {
      assert queue[0..] == queue;
    } else {
      var before := ts[..|ts| - 1];
      FewerTries(w, poolId, pool, ts);
      QueueReaches(w, poolId, pool, queue, before);
      LaunchAllKeepsPools(w, poolId, pool, before);
      NextTryReaches(w, LaunchAll(w, poolId, pool, before), poolId, pool, queue, |before|,
                     QueueSteps(poolId, pool, w.now, before), ts[|ts| - 1]);
    }
  }

  lemma FewerTries(w: World, poolId: nat, pool: Pool, ts: seq<Try>)
    requires ts != [] && TriesAllowed(w, poolId, pool, ts)
    ensures TriesAllowed(w, poolId, pool, ts[..|ts| - 1])
    ensures TryAllowed(LaunchAll(w, poolId, pool, ts[..|ts| - 1]), poolId, pool, ts[|ts| - 1])
  {
    var before := ts[..|ts| - 1];
    forall i | 0 <= i < |before| ensures TryAllowed(LaunchAll(w, poolId, pool, before[..i]), poolId, pool, before[i]) {
      assert before[..i] == ts[..i];
    }
  }

  // ---- a whole pass ----

  /** What ReconcilePool does when its reads work: the advance half, the decision, and the launches. */
  lemma {:induction false} FullPassIsARun(w: World, poolId: nat, listed: bool, vs: seq<AdvanceVisit>,
                                          polled: seq<Scaling.Job>, hooked: seq<Scaling.Job>, order: seq<string>,
                                          ts: seq<Try>)
    requires Serving(w, poolId) && Enumerates(VisitNames(vs), LiveNames(w, poolId))
    requires JobsFromForge(polled) && JobsFromForge(hooked)
    requires var mid := AdvancePool(w, poolId, listed, vs);
             && Enumerates(order, LiveNames(mid, poolId))
             && Follows(LaunchQueue(Decision(mid, w.pools[poolId], polled, hooked, order)), ts)
             && TriesAllowed(mid, poolId, w.pools[poolId], ts)
    ensures var mid := AdvancePool(w, poolId, listed, vs);
            Reaches(Sys(w, None),
                    [Ctl(Advance(poolId, listed, vs)), Ctl(Decide(poolId, polled, hooked, order))]
                      + QueueSteps(poolId, w.pools[poolId], w.now, ts),
                    Sys(LaunchAll(mid, poolId, w.pools[poolId], ts), None))
  {
    var pool, mid := w.pools[poolId], AdvancePool(w, poolId, listed, vs);
    var queue := LaunchQueue(Decision(mid, pool, polled, hooked, order));
    AdvanceKeepsSetting(w, poolId, listed, vs);
    QueueReaches(mid, poolId, pool, queue, ts);
    StepThen(Sys(w, None), Ctl(Advance(poolId, listed, vs)), Sys(mid, None),
             Ctl(Decide(poolId, polled, hooked, order)), Sys(mid, Scale(poolId, queue)),
             QueueSteps(poolId, pool, w.now, ts), Sys(LaunchAll(mid, poolId, pool, ts), PassLeft(poolId, queue, ts)));
    assert queue[|queue|..] == [];
  }

  /** Whether the clients could be built and the rows read again; the demand, if it could be polled. */
  datatype Reads = Reads(resolved: bool, reread: bool, demand: Option<seq<Scaling.Job>>)
  {
    predicate Complete() { resolved && reread && demand.Some? }
  }

  /** The steps ReconcilePool takes: none when the clients cannot be built, the advance half alone when it cannot read
      what the decision needs, and otherwise all of them. */
  function PassSteps(poolId: nat, pool: Pool, now: int, got: Reads, listed: bool, vs: seq<AdvanceVisit>,
                     hooked: seq<Scaling.Job>, order: seq<string>, ts: seq<Try>): seq<Step>
  {
    if !got.resolved then []
    else if !got.Complete() then [Ctl(Advance(poolId, listed, vs))]
    else [Ctl(Advance(poolId, listed, vs)), Ctl(Decide(poolId, got.demand.value, hooked, order))]
           + QueueSteps(poolId, pool, now, ts)
  }

  function WorldAfterPass(w: World, poolId: nat, got: Reads, listed: bool, vs: seq<AdvanceVisit>, ts: seq<Try>): World
    requires poolId in w.pools
  {
    if !got.resolved then w
    else if !got.Complete() then AdvancePool(w, poolId, listed, vs)
    else LaunchAll(AdvancePool(w, poolId, listed, vs), poolId, w.pools[poolId], ts)
  }

  /** Every pass of the code over a pool, those that return early included, is a sequence of steps of the system. */
  lemma PassIsARun(w: World, poolId: nat, got: Reads, listed: bool, vs: seq<AdvanceVisit>,
                   hooked: seq<Scaling.Job>, order: seq<string>, ts: seq<Try>)
    requires Serving(w, poolId)
    requires got.resolved ==> Enumerates(VisitNames(vs), LiveNames(w, poolId))
    requires got.Complete() ==>
               var mid := AdvancePool(w, poolId, listed, vs);
               && JobsFromForge(got.demand.value) && JobsFromForge(hooked)
               && Enumerates(order, LiveNames(mid, poolId))
               && Follows(LaunchQueue(Decision(mid, w.pools[poolId], got.demand.value, hooked, order)), ts)
               && TriesAllowed(mid, poolId, w.pools[poolId], ts)
    ensures Reaches(Sys(w, None), PassSteps(poolId, w.pools[poolId], w.now, got, listed, vs, hooked, order, ts),
                    Sys(WorldAfterPass(w, poolId, got, listed, vs, ts), None))
  {
    if got.Complete() {
      FullPassIsARun(w, poolId, listed, vs, got.demand.value, hooked, order, ts);
    } else if got.resolved {
      var s, step := Sys(w, None), Ctl(Advance(poolId, listed, vs));
      assert Enabled(s, step) && After(s, step) == Sys(AdvancePool(w, poolId, listed, vs), None);
      assert [step][1..] == [];
    }
  }

  lemma StepThen(s: Sys, first: Step, s1: Sys, second: Step, s2: Sys, tail: seq<Step>, s3: Sys)
    requires Enabled(s, first) && After(s, first) == s1 && Enabled(s1, second) && After(s1, second) == s2
    requires Reaches(s2, tail, s3)
    ensures Reaches(s, [first, second] + tail, s3)
  {
  }

  lemma AdvanceKeepsSetting(w: World, poolId: nat, listed: bool, vs: seq<AdvanceVisit>)
    requires poolId in w.pools
    ensures var w' := AdvancePool(w, poolId, listed, vs);
            && w'.self == w.self && w'.pools == w.pools && w'.clouds == w.clouds && w'.forges == w.forges
            && w'.now == w.now
  {
    var snap := SnapshotOf(w, w.pools[poolId].forgeId, listed);
    AdvanceAllFrame(Lifecycle.Witness(w, poolId, snap), w.pools[poolId], snap, vs);
  }

  // ---- the reaper ----

  function SweepSteps(v: Option<Sweep>): seq<Step> {
    if v.Some? then [Sweeping(v.value)] else []
  }

  lemma SweepReaches(s: Sys, v: Option<Sweep>, w': World)
    requires w' == if v.Some? then SweepEffect(s.w, v.value) else s.w
    ensures Reaches(s, SweepSteps(v), s.(w := w'))
  {
  }

  function ReapSteps(p: ReapPasses.Pass): seq<Step> {
    SweepSteps(if p.clouds.Some? then Some(Clouds(p.clouds.value)) else None)
    + SweepSteps(if p.forges.Some? then Some(Forges(p.forges.value)) else None)
    + SweepSteps(if p.rows.Some? then Some(Rows(p.rows.value)) else None)
  }

  /** What Reap does, at whatever moment it comes: up to three sweeps. */
  lemma {:induction false} ReapIsARun(s: Sys, p: ReapPasses.Pass)
    ensures Reaches(s, ReapSteps(p), s.(w := ReapPasses.Reap(s.w, p)))
  {
    var a, b := s.(w := ReapPasses.CloudPhase(s.w, p)), s.(w := ReapPasses.ForgePhase(s.w, p));
    var c := s.(w := ReapPasses.Reap(s.w, p));
    var x: Option<Sweep> := if p.clouds.Some? then Some(Clouds(p.clouds.value)) else None;
    var y: Option<Sweep> := if p.forges.Some? then Some(Forges(p.forges.value)) else None;
    var z: Option<Sweep> := if p.rows.Some? then Some(Rows(p.rows.value)) else None;
    SweepReaches(s, x, a.w);
    SweepReaches(a, y, b.w);
    SweepReaches(b, z, c.w);
    ReachesJoin(s, SweepSteps(x), a, SweepSteps(y), b);
    ReachesJoin(s, SweepSteps(x) + SweepSteps(y), b, SweepSteps(z), c);
  }
}
