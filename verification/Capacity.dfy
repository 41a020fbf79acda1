/** How many machines a pool can come to have, and for which jobs, over every run: failed launches, crashes and late
    sweeps included. */
module Capacity {
  import opened Types
  import opened Instances
  import opened Worlds
  import opened Launches
  import opened Passes
  import opened System
  import opened Accounting
  import Lifecycle
  import Reaper
  import Scaling

  // ---- what a pool holds ----

  /** The names a pool has, or may yet have, a machine under: its live rows and the launch in flight, whose row a
      sweep may have closed and the launch may open again. */
  function Held(s: Sys, p: nat): set<string> {
    LiveNames(s.w, p) +
    if s.pass.Some? && s.pass.value.poolId == p && s.pass.value.flight.Some?
    then {s.pass.value.flight.value.name}
    else {}
  }

  /** The launches the pool's pass has still to begin. */
  function Pending(s: Sys, p: nat): seq<string> {
    if s.pass.Some? && s.pass.value.poolId == p then s.pass.value.queue else []
  }

  /** No two names of `held` are bound to the same job. */
  ghost predicate DistinctlyBound(rows: map<string, Row>, held: set<string>) {
    && held <= rows.Keys
    && forall m, n :: m in held && n in held && m != n ==> rows[m].jobId == "" || rows[m].jobId != rows[n].jobId
  }

  /** The queued jobs are distinct, and no name of `held` is bound to any of them. */
  ghost predicate QueuedOnce(rows: map<string, Row>, held: set<string>, queue: seq<string>) {
    && (forall i, n :: 0 <= i < |queue| && n in held && n in rows && queue[i] != "" ==> rows[n].jobId != queue[i])
    && (forall i, j :: 0 <= i < j < |queue| && queue[i] != "" ==> queue[i] != queue[j])
  }

  /** No job has two machines, and none that has one is queued or is queued twice. */
  ghost predicate OneEach(s: Sys, p: nat) {
    DistinctlyBound(s.w.rows, Held(s, p)) && QueuedOnce(s.w.rows, Held(s, p), Pending(s, p))
  }

  ghost predicate Within(s: Sys, p: nat, ceiling: nat) {
    |Held(s, p)| + |Pending(s, p)| <= ceiling
  }

  lemma SmallerSet<T>(a: set<T>, b: set<T>)
    requires a <= b
    ensures |a| <= |b|
  {
    assert b == a + (b - a);
  }

  // ---- steps that add nothing ----

  /** Rows keep their pool and job, and none comes to life except perhaps `extra`. */
  ghost predicate Narrower(w: World, w': World, extra: set<string>) {
    forall n :: n in w'.rows ==>
      && n in w.rows && w'.rows[n].poolId == w.rows[n].poolId && w'.rows[n].jobId == w.rows[n].jobId
      && (w'.rows[n].Live() ==> w.rows[n].Live() || n in extra)
  }

  lemma NarrowerTransitive(a: World, b: World, c: World)
    requires Narrower(a, b, {}) && Narrower(b, c, {})
    ensures Narrower(a, c, {})
  {
  }

  ghost predicate AddsNothing(s: Sys, s': Sys, p: nat) {
    && Held(s', p) <= Held(s, p)
    && Held(s', p) <= s'.w.rows.Keys
    && (forall n :: n in Held(s', p) && n in s.w.rows ==> s'.w.rows[n].jobId == s.w.rows[n].jobId)
    && (Pending(s', p) == Pending(s, p) || Pending(s', p) == [])
  }

  lemma AddingNothingKeeps(s: Sys, s': Sys, p: nat, ceiling: nat)
    requires AddsNothing(s, s', p)
    ensures OneEach(s, p) ==> OneEach(s', p)
    ensures Within(s, p, ceiling) ==> Within(s', p, ceiling)
  {
    SmallerSet(Held(s', p), Held(s, p));
  }

  // ---- the advance half and the operator ----

  lemma DestroyKeepsJob(stored: Row, inst: Row, hasForge: bool, now: int, e: Lifecycle.DestroyEnv)
    requires inst.jobId == stored.jobId
    ensures Lifecycle.Destroy(stored, inst, hasForge, now, e).row.jobId == stored.jobId
  {
  }

  lemma AdvanceKeepsJob(r: Row, pool: Pool, m: Option<Machine>, snap: Lifecycle.Snapshot, now: int,
                        e: Lifecycle.AdvanceEnv)
    ensures Lifecycle.Advance(r, pool, m, snap, now, e).row.jobId == r.jobId
  {
    DestroyKeepsJob(r, r, true, now, e.destroy);
    if m.Some? { AdvanceUpKeepsJob(r, m.value, snap, now, e); }
  }

  lemma AdvanceUpKeepsJob(r: Row, m: Machine, snap: Lifecycle.Snapshot, now: int, e: Lifecycle.AdvanceEnv)
    ensures Lifecycle.AdvanceUp(r, m, snap, now, e).row.jobId == r.jobId
  {
  }

  lemma AdvanceOneNarrows(w: World, pool: Pool, snap: Lifecycle.Snapshot, v: AdvanceVisit)
    ensures Narrower(w, AdvanceOne(w, pool, snap, v), {})
  {
    AdvanceOneFrame(w, pool, snap, v);
    if LiveRow(w, v.name) {
      AdvanceKeepsJob(w.rows[v.name], pool, MachineFor(w, pool, w.rows[v.name]), snap, w.now, v.e);
    }
  }

  lemma {:induction false} AdvanceAllNarrows(w: World, pool: Pool, snap: Lifecycle.Snapshot, vs: seq<AdvanceVisit>)
    ensures Narrower(w, AdvanceAll(w, pool, snap, vs), {})
  {
    if vs != [] {
      var u := AdvanceAll(w, pool, snap, vs[..|vs| - 1]);
      AdvanceAllNarrows(w, pool, snap, vs[..|vs| - 1]);
      AdvanceOneNarrows(u, pool, snap, vs[|vs| - 1]);
      NarrowerTransitive(w, u, AdvanceAll(w, pool, snap, vs));
    }
  }

  lemma AdvancePoolNarrows(w: World, poolId: nat, listed: bool, vs: seq<AdvanceVisit>)
    requires poolId in w.pools
    ensures Narrower(w, AdvancePool(w, poolId, listed, vs), {})
  {
    var snap := SnapshotOf(w, w.pools[poolId].forgeId, listed);
    AdvanceAllNarrows(Lifecycle.Witness(w, poolId, snap), w.pools[poolId], snap, vs);
  }

  lemma OperatorNarrows(w: World, a: Operator)
    ensures Narrower(w, OperatorEffect(w, a), {})
  {
    if a.DestroyMachine? { DestroyInstanceNarrows(w, a.name, a.op); }
  }

  lemma DestroyInstanceNarrows(w: World, name: string, e: OperatorEnv)
    ensures Narrower(w, DestroyInstance(w, name, e), {})
  {
    DestroyInstanceFrame(w, name, e);
    if LiveRow(w, name) { DestroyedNarrows(w.rows[name], e.forge, w.now, e.destroy); }
  }

  lemma DestroyedNarrows(r: Row, hasForge: bool, now: int, e: Lifecycle.DestroyEnv)
    requires r.Live()
    ensures var r' := Lifecycle.Destroy(r, r, hasForge, now, e).row; r'.poolId == r.poolId && r'.jobId == r.jobId
  {
  }

  // ---- launches ----

  /** A launch's next effect, whatever comes of it, adds no name and no job to what the pool holds. */
  lemma ProceedAddsNothing(w: World, p: ScalePass, e: LaunchEnv, pool: nat)
    requires p.flight.Some? && InFlight(w, p.flight.value) && p.flight.value.row.poolId == p.poolId
    ensures AddsNothing(Sys(w, Some(p)), AfterProceed(w, p, e), pool)
  {
    var l := p.flight.value;
    NextFrame(l, w.now, e);
    RowsAfterStep(w, l, e);
    assert StoredAfter(w.rows[l.name], l, w.now, e).jobId == w.rows[l.name].jobId;
    assert StoredAfter(w.rows[l.name], l, w.now, e).poolId == w.rows[l.name].poolId;
    assert Narrower(w, Effect(w, l, e), {l.name});
  }

  /** Beginning a launch moves one job from the queue to the pool's machines. */
  lemma BeginMovesOne(w: World, p: ScalePass, name: string, e: LaunchEnv)
    requires p.queue != [] && p.flight.None? && p.poolId in w.pools && name !in w.rows
    ensures var s, s' := Sys(w, Some(p)), AfterBegin(w, p, name, e);
            && Held(s', p.poolId) <= Held(s, p.poolId) + {name}
            && (Pending(s', p.poolId) == p.queue[1..] || Pending(s', p.poolId) == [])
            && (name in Held(s', p.poolId) ==> name in s'.w.rows && s'.w.rows[name].jobId == p.queue[0])
            && (forall n :: n in w.rows ==> n in s'.w.rows && s'.w.rows[n] == w.rows[n])
  {
  }

  lemma BeginElsewhere(w: World, p: ScalePass, name: string, e: LaunchEnv, pool: nat)
    requires p.queue != [] && p.flight.None? && p.poolId in w.pools && name !in w.rows && pool != p.poolId
    ensures AddsNothing(Sys(w, Some(p)), AfterBegin(w, p, name, e), pool)
  {
  }

  lemma BeginKeepsOneEach(w: World, p: ScalePass, name: string, e: LaunchEnv, pool: nat)
    requires p.queue != [] && p.flight.None? && p.poolId in w.pools && name !in w.rows
    requires OneEach(Sys(w, Some(p)), pool)
    ensures OneEach(AfterBegin(w, p, name, e), pool)
  {
    var s, s' := Sys(w, Some(p)), AfterBegin(w, p, name, e);
    if pool != p.poolId {
      BeginElsewhere(w, p, name, e, pool);
      AddingNothingKeeps(s, s', pool, 0);
    } else {
      BeginMovesOne(w, p, name, e);
      JobMoves(w.rows, s'.w.rows, Held(s, pool), Held(s', pool), p.queue, Pending(s', pool), name);
    }
  }

  lemma JobMoves(rows: map<string, Row>, rows': map<string, Row>, held: set<string>, held': set<string>,
                 queue: seq<string>, queue': seq<string>, name: string)
    requires DistinctlyBound(rows, held) && QueuedOnce(rows, held, queue) && queue != []
    requires name !in rows && held' <= held + {name} && (queue' == queue[1..] || queue' == [])
    requires forall n :: n in rows ==> n in rows' && rows'[n] == rows[n]
    requires name in held' ==> name in rows' && rows'[name].jobId == queue[0]
    ensures DistinctlyBound(rows', held') && QueuedOnce(rows', held', queue')
  {
  }

  lemma BeginKeepsWithin(w: World, p: ScalePass, name: string, e: LaunchEnv, pool: nat, ceiling: nat)
    requires p.queue != [] && p.flight.None? && p.poolId in w.pools && name !in w.rows
    requires Within(Sys(w, Some(p)), pool, ceiling)
    ensures Within(AfterBegin(w, p, name, e), pool, ceiling)
  {
    var s, s' := Sys(w, Some(p)), AfterBegin(w, p, name, e);
    if pool != p.poolId {
      BeginElsewhere(w, p, name, e, pool);
      AddingNothingKeeps(s, s', pool, ceiling);
    } else {
      BeginMovesOne(w, p, name, e);
      SmallerSet(Held(s', pool), Held(s, pool) + {name});
    }
  }

  // ---- the decision ----

  lemma {:induction false} RowsInCount(w: World, order: seq<string>)
    requires forall n :: n in order ==> LiveRow(w, n)
    ensures Scaling.CountLive(RowsIn(w, order)) == |order| == |RowsIn(w, order)|
    ensures forall n :: n in order ==> n in w.rows && w.rows[n] in RowsIn(w, order)
  {
    if order != [] {
      var before, last := order[..|order| - 1], order[|order| - 1];
      assert last in order && order == before + [last];
      RowsInCount(w, before);
      assert RowsIn(w, order)[..|order| - 1] == RowsIn(w, before);
    }
  }

  lemma {:induction false} DistinctLength(order: seq<string>, s: set<string>)
    requires Enumerates(order, s)
    ensures |order| == |s|
  {
    if order == [] {
      assert s == {};
    } else {
      var before, last := order[..|order| - 1], order[|order| - 1];
      assert last in order && order == before + [last];
      DistinctLength(before, s - {last});
    }
  }

  /** What a decision queues: distinct jobs that none of the pool's live rows is bound to, and no more launches than
      the pool has room for. */
  lemma DecisionQueue(w: World, poolId: nat, polled: seq<Scaling.Job>, hooked: seq<Scaling.Job>, order: seq<string>)
    requires poolId in w.pools && JobsFromForge(polled) && JobsFromForge(hooked)
             && Enumerates(order, LiveNames(w, poolId))
    ensures var q := LaunchQueue(Decision(w, w.pools[poolId], polled, hooked, order));
            && (forall i, j :: 0 <= i < j < |q| && q[i] != "" ==> q[i] != q[j])
            && (forall i, n :: 0 <= i < |q| && q[i] != "" && n in LiveNames(w, poolId) ==> w.rows[n].jobId != q[i])
            && |LiveNames(w, poolId)| + |q| <= Max(w.pools[poolId].maxInstances, |LiveNames(w, poolId)|)
  {
    var pool := w.pools[poolId];
    var jobs, live := Scaling.Matching(Scaling.Merged(polled, hooked), pool.labels), RowsIn(w, order);
    forall n | n in order ensures LiveRow(w, n) { assert n in LiveNames(w, poolId); }
    RowsInCount(w, order);
    DistinctLength(order, LiveNames(w, poolId));
    Scaling.PlanRespectsCeiling(pool.maxInstances, pool.minIdle, jobs, live);
    DecisionJobs(polled, hooked, pool, live);
    var p := Decision(w, pool, polled, hooked, order);
    var q := LaunchQueue(p);
    forall i, n | 0 <= i < |q| && q[i] != "" && n in LiveNames(w, poolId) ensures w.rows[n].jobId != q[i] {
      assert n in order && w.rows[n] in live;
      assert p.forJobs[i] in p.forJobs;
    }
  }

  lemma DecisionJobs(polled: seq<Scaling.Job>, hooked: seq<Scaling.Job>, pool: Pool, live: seq<Row>)
    requires JobsFromForge(polled) && JobsFromForge(hooked)
    ensures var p := Scaling.PlanFor(pool.maxInstances, pool.minIdle,
                                     Scaling.Matching(Scaling.Merged(polled, hooked), pool.labels), live);
            && Scaling.DistinctJobs(p.forJobs) && Scaling.NamedJobs(p.forJobs)
            && (forall j :: j in p.forJobs ==> j.id !in Scaling.Covered(live))
  {
    var merged := Scaling.Merged(polled, hooked);
    Scaling.MergeIsAUnion(polled, hooked);
    forall i | 0 <= i < |merged| ensures merged[i].id != "" { assert merged[i] in merged; }
    Scaling.MatchingKeeps(merged, pool.labels);
    Scaling.PlanLaunchesForUncovered(pool.maxInstances, pool.minIdle, Scaling.Matching(merged, pool.labels), live);
  }

  /** The jobs waiting for a machine of pool `q`, as its decision sees them. */
  function Waiting(w: World, q: nat, polled: seq<Scaling.Job>, hooked: seq<Scaling.Job>, order: seq<string>)
    : seq<Scaling.Job>
    requires q in w.pools
  {
    Scaling.Uncovered(Scaling.Matching(Scaling.Merged(polled, hooked), w.pools[q].labels),
                      Scaling.Covered(RowsIn(w, order)))
  }

  /** The job has a place behind those left to idle machines and within the room of the pool. */
  predicate DueForLaunch(waiting: seq<Scaling.Job>, idle: nat, room: nat, id: string) {
    exists i :: idle <= i < |waiting| && i < idle + room && waiting[i].id == id
  }

  /** One job per machine holds within a pool only: a decision looks at its own pool's rows, so whether it queues a
      job has nothing to do with the machine another pool has for it. */
  lemma QueuedExactlyWhen(w: World, q: nat, polled: seq<Scaling.Job>, hooked: seq<Scaling.Job>, order: seq<string>,
                          id: string)
    requires q in w.pools && id != ""
    ensures var pool, live := w.pools[q], RowsIn(w, order);
            id in LaunchQueue(Decision(w, pool, polled, hooked, order)) <==>
              DueForLaunch(Waiting(w, q, polled, hooked, order), Scaling.CountSpare(live),
                           Max(pool.maxInstances - Scaling.CountLive(live), 0), id)
  {
    var p, waiting, idle, room, minIdle := DecisionParts(w, q, polled, hooked, order);
    QueuedOf(p, waiting, idle, room, minIdle, id);
  }

  lemma DecisionParts(w: World, q: nat, polled: seq<Scaling.Job>, hooked: seq<Scaling.Job>, order: seq<string>)
    returns (p: Scaling.Plan, waiting: seq<Scaling.Job>, idle: nat, room: nat, minIdle: int)
    requires q in w.pools
    ensures p == Decision(w, w.pools[q], polled, hooked, order) && waiting == Waiting(w, q, polled, hooked, order)
    ensures idle == Scaling.CountSpare(RowsIn(w, order))
    ensures room == Max(w.pools[q].maxInstances - Scaling.CountLive(RowsIn(w, order)), 0)
    ensures p == Scaling.PlanOf(waiting, idle, room, minIdle, p.queued)
  {
    p, waiting := Decision(w, w.pools[q], polled, hooked, order), Waiting(w, q, polled, hooked, order);
    idle, minIdle := Scaling.CountSpare(RowsIn(w, order)), w.pools[q].minIdle;
    room := Max(w.pools[q].maxInstances - Scaling.CountLive(RowsIn(w, order)), 0);
  }

  lemma QueuedOf(p: Scaling.Plan, waiting: seq<Scaling.Job>, idle: nat, room: nat, minIdle: int, id: string)
    requires p == Scaling.PlanOf(waiting, idle, room, minIdle, p.queued) && id != ""
    ensures id in LaunchQueue(p) <==> DueForLaunch(waiting, idle, room, id)
  {
    Scaling.IsAStretch(waiting, idle, room, minIdle, p.queued);
    QueueHasStretch(p, waiting, idle, room, id);
  }

  lemma QueueHasStretch(p: Scaling.Plan, waiting: seq<Scaling.Job>, idle: nat, room: nat, id: string)
    requires p.forJobs == Scaling.Stretch(waiting, idle, room) && id != ""
    ensures id in LaunchQueue(p) <==> DueForLaunch(waiting, idle, room, id)
  {
    var queue := LaunchQueue(p);
    if DueForLaunch(waiting, idle, room, id) {
      var i :| idle <= i < |waiting| && i < idle + room && waiting[i].id == id;
      assert queue[i - idle] == p.forJobs[i - idle].id == id;
    }
    if id in queue {
      var i :| 0 <= i < |queue| && queue[i] == id;
      assert i < |p.forJobs| && waiting[idle + i] == p.forJobs[i];
    }
  }

  /** A job that a live machine of pool `p` was created for: another pool that serves it and has no machines yet
      launches a second one. */
  lemma TwoPoolsLaunchForOneJob(w: World, p: nat, n: string, q: nat, job: Scaling.Job)
    requires LiveIn(w, p, n) && w.rows[n].jobId == job.id && job.id != ""
    requires Serving(w, q) && p != q && LiveNames(w, q) == {} && w.pools[q].maxInstances > 0
    requires Scaling.Serves(w.pools[q].labels, job)
    ensures MayControl(Sys(w, None), Decide(q, [job], [], []))
    ensures job.id in LaunchQueue(Decision(w, w.pools[q], [job], [], []))
  {
    EmptyPoolQueues(w, q, job);
  }

  lemma EmptyPoolWaits(w: World, p: nat, job: Scaling.Job)
    requires p in w.pools && Scaling.Serves(w.pools[p].labels, job)
    ensures RowsIn(w, []) == [] && Waiting(w, p, [job], [], []) == [job]
  {
    assert RowsIn(w, []) == [];
    var none: seq<Row> := [];
    assert Scaling.Covered(none) == {};
    Scaling.OneServedJobIsUncovered(job, w.pools[p].labels);
  }

  lemma EmptyPoolQueues(w: World, p: nat, job: Scaling.Job)
    requires p in w.pools && w.pools[p].maxInstances > 0 && Scaling.Serves(w.pools[p].labels, job) && job.id != ""
    ensures job.id in LaunchQueue(Decision(w, w.pools[p], [job], [], []))
  {
    EmptyPoolWaits(w, p, job);
    var plan, waiting, idle, room, minIdle := DecisionParts(w, p, [job], [], []);
    OneJobQueued(plan, waiting, room, minIdle, job);
  }

  lemma OneJobQueued(p: Scaling.Plan, waiting: seq<Scaling.Job>, room: nat, minIdle: int, job: Scaling.Job)
    requires waiting == [job] && room > 0 && p == Scaling.PlanOf(waiting, 0, room, minIdle, p.queued) && job.id != ""
    ensures job.id in LaunchQueue(p)
  {
    QueuedOf(p, waiting, 0, room, minIdle, job.id);
    assert waiting[0].id == job.id;
    assert DueForLaunch(waiting, 0, room, job.id);
  }

  // ---- every step, every run ----

  lemma SweptNarrows(w: World, w': World)
    requires Reaper.Swept(w, w')
    ensures Narrower(w, w', {}) && w'.rows.Keys == w.rows.Keys
  {
  }

  lemma OutsideNarrows(w: World, o: Outside)
    ensures Narrower(w, OutsideEffect(w, o), {}) && OutsideEffect(w, o).rows.Keys == w.rows.Keys
  {
  }

  /** Any step of someone other than the controller. */
  lemma OthersAddNothing(s: Sys, step: Step, p: nat)
    requires SysInv(s) && Enabled(s, step) && Held(s, p) <= s.w.rows.Keys && !step.Ctl?
    ensures AddsNothing(s, After(s, step), p)
  {
    var w' := After(s, step).w;
    if step.Env? {
      OutsideNarrows(s.w, step.o);
    } else if step.Sweeping? {
      SweepEffectKeeps(s, step.v);
      SweptNarrows(s.w, w');
    } else {
      OperatorNarrows(s.w, step.a);
    }
    WorldAddsNothing(s, w', p);
  }

  lemma WorldAddsNothing(s: Sys, w': World, p: nat)
    requires Narrower(s.w, w', {}) && Held(s, p) <= s.w.rows.Keys && (w'.rows.Keys == s.w.rows.Keys || s.pass.None?)
    ensures AddsNothing(s, s.(w := w'), p)
  {
  }

  /** Any step of the controller other than a decision or the beginning of a launch. */
  lemma ControlAddsNothing(s: Sys, c: Control, p: nat)
    requires SysInv(s) && MayControl(s, c) && Held(s, p) <= s.w.rows.Keys && !c.Decide? && !c.BeginLaunch?
    ensures AddsNothing(s, AfterControl(s, c), p)
  {
    match c
    case Advance(poolId, listed, visits) =>
      AdvancePoolNarrows(s.w, poolId, listed, visits);
      AdvanceKeepsNames(s.w, poolId, listed, visits);
      WorldAddsNothing(s, AdvancePool(s.w, poolId, listed, visits), p);
    case Proceed(e) => ProceedAddsNothing(s.w, s.pass.value, e, p);
    case Crash =>
  }

  lemma AdvanceKeepsNames(w: World, poolId: nat, listed: bool, vs: seq<AdvanceVisit>)
    requires poolId in w.pools
    ensures AdvancePool(w, poolId, listed, vs).rows.Keys == w.rows.Keys
  {
    var snap := SnapshotOf(w, w.pools[poolId].forgeId, listed);
    AdvanceAllFrame(Lifecycle.Witness(w, poolId, snap), w.pools[poolId], snap, vs);
  }

  lemma DecideKeepsOneEach(s: Sys, c: Control, p: nat)
    requires MayControl(s, c) && c.Decide? && OneEach(s, p)
    ensures OneEach(AfterControl(s, c), p)
  {
    DecisionQueue(s.w, c.poolId, c.polled, c.hooked, c.order);
  }

  lemma DecideKeepsWithin(s: Sys, c: Control, p: nat, ceiling: nat)
    requires MayControl(s, c) && c.Decide? && Within(s, p, ceiling)
    requires p in s.w.pools ==> s.w.pools[p].maxInstances <= ceiling
    ensures Within(AfterControl(s, c), p, ceiling)
  {
    DecisionQueue(s.w, c.poolId, c.polled, c.hooked, c.order);
  }

  lemma StepKeepsOneEach(s: Sys, step: Step, p: nat)
    requires SysInv(s) && Enabled(s, step) && OneEach(s, p)
    ensures OneEach(After(s, step), p)
  {
    if !step.Ctl? {
      OthersAddNothing(s, step, p);
      AddingNothingKeeps(s, After(s, step), p, 0);
    } else if step.c.BeginLaunch? {
      BeginKeepsOneEach(s.w, s.pass.value, step.c.name, step.c.env, p);
    } else if step.c.Decide? {
      DecideKeepsOneEach(s, step.c, p);
    } else {
      ControlAddsNothing(s, step.c, p);
      AddingNothingKeeps(s, After(s, step), p, 0);
    }
  }

  lemma StepKeepsWithin(s: Sys, step: Step, p: nat, ceiling: nat)
    requires SysInv(s) && Enabled(s, step) && Held(s, p) <= s.w.rows.Keys && Within(s, p, ceiling)
    requires p in s.w.pools ==> s.w.pools[p].maxInstances <= ceiling
    ensures Within(After(s, step), p, ceiling)
  {
    if !step.Ctl? {
      OthersAddNothing(s, step, p);
      AddingNothingKeeps(s, After(s, step), p, ceiling);
    } else if step.c.BeginLaunch? {
      BeginKeepsWithin(s.w, s.pass.value, step.c.name, step.c.env, p, ceiling);
    } else if step.c.Decide? {
      DecideKeepsWithin(s, step.c, p, ceiling);
    } else {
      ControlAddsNothing(s, step.c, p);
      AddingNothingKeeps(s, After(s, step), p, ceiling);
    }
  }

  lemma {:induction false} RunKeepsOneEach(ss: seq<Sys>, steps: seq<Step>, i: nat, p: nat)
    requires IsRun(ss, steps) && Initial(ss[0]) && i < |ss|
    ensures OneEach(ss[i], p)
  {
    if i > 0 {
      InitialInv(ss[0]);
      RunKeepsOneEach(ss, steps, i - 1, p);
      RunKeepsSysInv(ss, steps, i - 1);
      StepKeepsOneEach(ss[i - 1], steps[i - 1], p);
    }
  }

  /** In every state of every run no pool has two live rows bound to the same job. */
  lemma OneMachinePerJob(ss: seq<Sys>, steps: seq<Step>, i: nat, p: nat, m: string, n: string)
    requires IsRun(ss, steps) && Initial(ss[0]) && i < |ss|
    requires LiveIn(ss[i].w, p, m) && LiveIn(ss[i].w, p, n)
    requires ss[i].w.rows[m].jobId != "" && ss[i].w.rows[m].jobId == ss[i].w.rows[n].jobId
    ensures m == n
  {
    RunKeepsOneEach(ss, steps, i, p);
    assert m in Held(ss[i], p) && n in Held(ss[i], p);
  }

  lemma RunStepKeepsWithin(ss: seq<Sys>, steps: seq<Step>, k: nat, p: nat, ceiling: nat)
    requires IsRun(ss, steps) && Initial(ss[0]) && k < |steps| && Within(ss[k], p, ceiling)
    requires p in ss[k].w.pools ==> ss[k].w.pools[p].maxInstances <= ceiling
    ensures Within(ss[k + 1], p, ceiling)
  {
    InitialInv(ss[0]);
    RunKeepsSysInv(ss, steps, k);
    RunKeepsOneEach(ss, steps, k, p);
    StepKeepsWithin(ss[k], steps[k], p, ceiling);
  }

  /** The pool is never set to more than `ceiling` machines in the states from `i` up to `j`. */
  ghost predicate CeilingAtMost(ss: seq<Sys>, i: nat, j: nat, p: nat, ceiling: nat)
    requires j <= |ss|
  {
    forall k :: i <= k < j && p in ss[k].w.pools ==> ss[k].w.pools[p].maxInstances <= ceiling
  }

  lemma {:induction false} WithinThroughout(ss: seq<Sys>, i: nat, j: nat, p: nat, ceiling: nat)
    requires i <= j < |ss| && Within(ss[i], p, ceiling)
    requires forall k :: i <= k < j && Within(ss[k], p, ceiling) ==> Within(ss[k + 1], p, ceiling)
    ensures Within(ss[j], p, ceiling)
  {
    if i < j { WithinThroughout(ss, i, j - 1, p, ceiling); }
  }

  lemma RunKeepsWithin(ss: seq<Sys>, steps: seq<Step>, i: nat, j: nat, p: nat, ceiling: nat)
    requires IsRun(ss, steps) && Initial(ss[0]) && i <= j < |ss| && Within(ss[i], p, ceiling)
    requires CeilingAtMost(ss, i, j, p, ceiling)
    ensures Within(ss[j], p, ceiling)
  {
    forall k | i <= k < j && Within(ss[k], p, ceiling) ensures Within(ss[k + 1], p, ceiling) {
      RunStepKeepsWithin(ss, steps, k, p, ceiling);
    }
    WithinThroughout(ss, i, j, p, ceiling);
  }

  /** From a moment between passes on, a pool's live rows never exceed the larger of its ceiling (the highest it is set
      to meanwhile) and the number it had, whatever launches fail part way. */
  lemma CeilingHolds(ss: seq<Sys>, steps: seq<Step>, i: nat, j: nat, p: nat, ceiling: nat)
    requires IsRun(ss, steps) && Initial(ss[0]) && i <= j < |ss| && ss[i].pass.None?
    requires CeilingAtMost(ss, i, j, p, ceiling)
    ensures |LiveNames(ss[j].w, p)| <= Max(ceiling, |LiveNames(ss[i].w, p)|)
  {
    RunKeepsWithin(ss, steps, i, j, p, Max(ceiling, |LiveNames(ss[i].w, p)|));
    SmallerSet(LiveNames(ss[j].w, p), Held(ss[j], p));
  }
}
