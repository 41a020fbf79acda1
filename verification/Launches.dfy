/** launch (internal/controller/controller.go) as a sequence of single effects, so that a crash or a sweep can fall
    between any two of them. */
module Launches {
  import opened Types
  import opened Instances
  import opened Worlds
  import Lifecycle

  /** What launch has behind it. Recorded: the row is written. HasCredential: the forge registration is minted.
      Marked: the row says Provisioning. RollingBack: the provider refused. HasMachine: it created a machine whose id
      is not yet saved. Failing: only the write of Failed is left. */
  datatype Stage = Recorded | HasCredential | Marked | RollingBack | HasMachine | Failing | Done(ok: bool)

  /** A launch under way: `row` is its in-memory copy of the row it wrote ahead. */
  datatype Launch = Launch(name: string, pool: Pool, row: Row, stage: Stage)

  datatype NewMachine = NewMachine(id: string, state: MachineState, stamped: bool)

  /** `handle` is the id the forge gave out, empty when it exposes none; the registration itself is stored under
      `rid`. A failed call may leave a registration or a machine behind. */
  datatype MintReply = Minted(handle: string, rid: string) | MintFailed(left: Option<string>)
  datatype CreateReply = Created(m: NewMachine) | CreateFailed(left: Option<NewMachine>)

  datatype LaunchEnv = LaunchEnv(
    record: Reply,
    mint: MintReply,
    mark: Reply,
    bootstrap: bool,
    create: CreateReply,
    rollback: Reply,
    boot: Reply,
    fail: Reply)

  // ---- the steps ----

  /** The row written ahead. The rate is copied from the pool's size: a bill that already happened does not change. */
  function NewRow(poolId: nat, pool: Pool, jobId: string, now: int): Row {
    Row(poolId, Pending, "", "", jobId, pool.HourlyRate(), 0, 0.0, now, None, None, None, None, None)
  }

  /** The first step: the row is written before anything exists. */
  function Begin(w: World, name: string, row: Row, e: LaunchEnv): World {
    Save(w, name, row, e.record)
  }

  function Begun(name: string, pool: Pool, row: Row, e: LaunchEnv): Launch {
    Launch(name, pool, row, if e.record.Ok? then Recorded else Done(false))
  }

  function MachineOf(w: World, l: Launch, m: NewMachine): Machine {
    Machine(l.name, m.state, if m.stamped then Some(w.now) else None, Owner(w.self, l.pool.name).Tags())
  }

  /** The registration a step mints, also when the call reports an error. */
  function RunnerMade(l: Launch, e: LaunchEnv): Option<string> {
    if !l.stage.Recorded? then None
    else match e.mint
         case Minted(_, rid) => Some(rid)
         case MintFailed(left) => left
  }

  /** The machine a step creates, also when the call reports an error. */
  function MachineMade(l: Launch, e: LaunchEnv): Option<NewMachine> {
    if !l.stage.Marked? || !e.bootstrap then None
    else match e.create
         case Created(m) => Some(m)
         case CreateFailed(left) => left
  }

  /** The save a step makes: the row as the next stage has it. */
  function SaveMade(l: Launch, e: LaunchEnv): Option<Reply> {
    match l.stage
    case HasCredential => Some(e.mark)
    case HasMachine => Some(e.boot)
    case Failing => Some(e.fail)
    case _ => None
  }

  function RowsAfter(rows: map<string, Row>, l: Launch, now: int, e: LaunchEnv): map<string, Row> {
    var save := SaveMade(l, e);
    if save.Some? && save.value.Applied() then rows[l.name := Next(l, now, e).row] else rows
  }

  function RunnersAfter(runners: map<Rid, Runner>, l: Launch, e: LaunchEnv): map<Rid, Runner> {
    var made := RunnerMade(l, e);
    if made.Some? then runners[Rid(l.pool.forgeId, made.value) := Runner(l.name, false, false)]
    else if l.stage.RollingBack? && e.rollback.Applied() then runners - {Rid(l.pool.forgeId, l.row.runnerId)}
    else runners
  }

  function AddMachine(w: World, l: Launch, m: NewMachine): World {
    var k := Mid(l.pool.cloudId, m.id);
    w.(machines := w.machines[k := MachineOf(w, l, m)], past := w.past.(issued := w.past.issued + {k}))
  }

  /** The effect of the next step on the world. */
  function Effect(w: World, l: Launch, e: LaunchEnv): World {
    var w' := w.(rows := RowsAfter(w.rows, l, w.now, e), runners := RunnersAfter(w.runners, l, e));
    var made := MachineMade(l, e);
    if made.Some? then AddMachine(w', l, made.value) else w'
  }

  /** The launch after that step. */
  function Next(l: Launch, now: int, e: LaunchEnv): Launch {
    match l.stage
    case Recorded =>
      if e.mint.Minted? then l.(row := l.row.(runnerId := e.mint.handle), stage := HasCredential)
      else l.(stage := Failing)
    case HasCredential =>
      l.(row := Stamp(l.row, Provisioning, now), stage := if e.mark.Ok? then Marked else Failing)
    case Marked =>
      if !e.bootstrap then l.(stage := Failing)
      else if e.create.Created? then l.(row := l.row.(providerId := e.create.m.id), stage := HasMachine)
      else l.(stage := RollingBack)
    case RollingBack => l.(stage := Failing)
    case HasMachine =>
      l.(row := Stamp(l.row, Booting, now), stage := if e.boot.Ok? then Done(true) else Failing)
    case Failing => l.(row := Stamp(l.row, Failed, now), stage := Done(false))
    case Done(_) => l
  }

  /** A step leaves the configuration, the clock and what happened to the rows alone. */
  lemma EffectFrame(w: World, l: Launch, e: LaunchEnv)
    ensures var w' := Effect(w, l, e);
            && w'.self == w.self && w'.clouds == w.clouds && w'.forges == w.forges && w'.pools == w.pools
            && w'.now == w.now && w'.past.retired == w.past.retired && w'.past.seen == w.past.seen
  {
  }

  /** The launch keeps what it is for. */
  lemma NextFrame(l: Launch, now: int, e: LaunchEnv)
    ensures var l' := Next(l, now, e);
            && l'.name == l.name && l'.pool == l.pool
            && l'.row == l.row.(state := l'.row.state, runnerId := l'.row.runnerId, providerId := l'.row.providerId)
  {
  }

  function StepsLeft(s: Stage): nat {
    match s
    case Recorded => 6
    case HasCredential => 5
    case Marked => 4
    case RollingBack => 3
    case HasMachine => 3
    case Failing => 2
    case Done(_) => 0
  }

  /** The whole launch from `l` on, uninterrupted. */
  function Run(w: World, l: Launch, e: LaunchEnv): (World, Launch)
    decreases StepsLeft(l.stage)
  {
    if l.stage.Done? then (w, l) else Run(Effect(w, l, e), Next(l, w.now, e), e)
  }

  // ---- what the environment owes ----

  /** No row, no machine and no lost row carries the name: names are generated with enough randomness. */
  ghost predicate FreshName(w: World, name: string) {
    HasOurName(name) && name !in w.rows && name !in w.past.retired
  }

  predicate FreshMachine(w: World, pool: Pool, m: NewMachine) {
    m.id != "" && Mid(pool.cloudId, m.id) !in w.past.issued
  }

  predicate FreshRunner(w: World, pool: Pool, rid: string) {
    rid != "" && Rid(pool.forgeId, rid) !in w.runners
  }

  /** Ids are new: the provider and the forge never hand out one that is or was in use. */
  predicate Allowed(w: World, l: Launch, e: LaunchEnv) {
    && (RunnerMade(l, e).Some? ==> FreshRunner(w, l.pool, RunnerMade(l, e).value))
    && (e.mint.Minted? ==> e.mint.handle in {"", e.mint.rid})
    && (MachineMade(l, e).Some? ==> FreshMachine(w, l.pool, MachineMade(l, e).value))
  }

  // ---- the invariant of a launch under way ----

  predicate BeforeCreate(s: Stage) { s.Recorded? || s.HasCredential? || s.Marked? }

  /** The launch's copy fits the machines that exist; until the create call no machine carries its name. This does
      not depend on the stored row still being what launch wrote: a sweep may have closed it meanwhile. */
  ghost predicate InFlight(w: World, l: Launch) {
    && !l.stage.Done?
    && l.row.Live()
    && l.row.poolId in w.pools && w.pools[l.row.poolId] == l.pool
    && Fits(w, l.name, l.row)
    && l.name in w.rows && w.rows[l.name].poolId == l.row.poolId && w.rows[l.name].jobId == l.row.jobId
    && (BeforeCreate(l.stage) ==> w.rows[l.name].providerId == "" && l.row.providerId == "")
    && (BeforeCreate(l.stage) ==>
          forall k :: k in w.machines && Ours(w.self, w.machines[k]) ==> w.machines[k].name != l.name)
    && (l.stage.RollingBack? ==> l.row.providerId == "")
    && (forall k :: k in w.machines && Ours(w.self, w.machines[k]) && w.machines[k].name == l.name ==>
          w.machines[k].createdAt.None? || w.machines[k].createdAt.value >= l.row.createdAt)
    && l.row.createdAt <= w.now
  }

  lemma BeginKeepsInv(w: World, name: string, poolId: nat, jobId: string, e: LaunchEnv)
    requires Inv(w) && FreshName(w, name) && poolId in w.pools
    ensures var row := NewRow(poolId, w.pools[poolId], jobId, w.now);
            var w', l := Begin(w, name, row, e), Begun(name, w.pools[poolId], row, e);
            Inv(w') && (!l.stage.Done? ==> InFlight(w', l))
  {
    var row := NewRow(poolId, w.pools[poolId], jobId, w.now);
    assert Fits(w, name, row);
    SaveKeepsInv(w, name, row, e.record);
    FitsIgnoresTables(w, Begin(w, name, row, e), name, row);
  }

  lemma StepKeepsInv(w: World, l: Launch, e: LaunchEnv)
    requires Inv(w) && InFlight(w, l) && Allowed(w, l, e)
    ensures var w', l' := Effect(w, l, e), Next(l, w.now, e);
            Inv(w') && (!l'.stage.Done? ==> InFlight(w', l'))
  {
    NextFrame(l, w.now, e);
    if MachineMade(l, e).Some? {
      CreateKeepsInv(w, l, MachineMade(l, e).value);
      CreateKeepsFlight(w, l, e);
    } else {
      SavedStepKeepsInv(w, l, e);
      if !Next(l, w.now, e).stage.Done? { SameMachinesInFlight(w, Effect(w, l, e), l, Next(l, w.now, e)); }
    }
  }

  lemma SavedStepKeepsInv(w: World, l: Launch, e: LaunchEnv)
    requires Inv(w) && InFlight(w, l) && MachineMade(l, e).None?
    ensures Inv(Effect(w, l, e))
  {
    var w' := Effect(w, l, e);
    var r := Next(l, w.now, e).row;
    if SaveMade(l, e).Some? { Lifecycle.FitsSameIdentity(w, l.name, l.row, r); }
    forall n | n in w'.rows ensures Fits(w', n, w'.rows[n]) {
      FitsIgnoresTables(w, w', n, w'.rows[n]);
    }
  }

  /** A step that creates no machine and keeps pool, job and (once it is known) provider id. */
  lemma SameMachinesInFlight(w: World, w': World, l: Launch, l': Launch)
    requires InFlight(w, l) && !l'.stage.Done?
    requires w' == w.(rows := w'.rows, runners := w'.runners)
    requires w'.rows == w.rows || w'.rows == w.rows[l.name := l'.row]
    requires l' == l.(row := l'.row, stage := l'.stage) && l'.row.Live()
    requires l'.row == l.row.(state := l'.row.state, runnerId := l'.row.runnerId)
    requires BeforeCreate(l'.stage) ==> BeforeCreate(l.stage)
    requires l'.stage.RollingBack? ==> l.row.providerId == ""
    ensures InFlight(w', l')
  {
  }

  lemma CreateKeepsInv(w: World, l: Launch, m: NewMachine)
    requires Inv(w) && InFlight(w, l) && BeforeCreate(l.stage) && FreshMachine(w, l.pool, m)
    ensures Inv(AddMachine(w, l, m))
  {
    var k, w' := Mid(l.pool.cloudId, m.id), AddMachine(w, l, m);
    MatchesExactlyItsOwnTags(Owner(w.self, ""), Owner(w.self, l.pool.name));
    forall n | n in w'.rows ensures Fits(w', n, w'.rows[n]) {
      assert Fits(w, n, w.rows[n]);
      forall j | j in w'.machines && Ours(w'.self, w'.machines[j]) && w'.machines[j].name == n
        ensures Accounts(w', w'.rows[n], j)
      {
        assert j != k ==> Accounts(w, w.rows[n], j);
      }
    }
  }

  lemma CreateKeepsFlight(w: World, l: Launch, e: LaunchEnv)
    requires Inv(w) && InFlight(w, l) && Allowed(w, l, e) && MachineMade(l, e).Some?
    ensures Effect(w, l, e) == AddMachine(w, l, MachineMade(l, e).value)
    ensures InFlight(Effect(w, l, e), Next(l, w.now, e))
  {
    var m := MachineMade(l, e).value;
    var k, w', l' := Mid(l.pool.cloudId, m.id), Effect(w, l, e), Next(l, w.now, e);
    MatchesExactlyItsOwnTags(Owner(w.self, ""), Owner(w.self, l.pool.name));
    assert w'.machines == w.machines[k := MachineOf(w, l, m)];
    forall j | j in w'.machines && Ours(w'.self, w'.machines[j]) && w'.machines[j].name == l.name
      ensures j == k
    {
    }
    assert Fits(w', l.name, l'.row);
  }

  // ---- the stored row of a launch under way ----

  predicate Unused(r: Row) {
    && r.activeAt.None? && r.readyAt.None? && r.claimedAt.None? && r.finishedAt.None? && r.destroyedAt.None?
    && r.cost == 0.0 && r.billedSeconds == 0
  }

  /** As long as nobody else writes the row, the table holds what launch last saved: at most the state and the two
      ids lag behind the copy. */
  predicate Synced(stored: Row, l: Launch) {
    && Unused(l.row)
    && stored == l.row.(state := stored.state, runnerId := stored.runnerId, providerId := stored.providerId)
    && stored.runnerId in {"", l.row.runnerId}
    && stored.providerId in {"", l.row.providerId}
    && Rank(stored.state) <= Rank(l.row.state)
    && match l.stage
       case Recorded =>
         l.row.state == Pending && stored.state == Pending && l.row.runnerId == "" && l.row.providerId == ""
       case HasCredential => l.row.state == Pending && stored.state == Pending && l.row.providerId == ""
       case Marked => l.row.state == Provisioning && stored.state == Provisioning && l.row.providerId == ""
       case RollingBack => l.row.state == Provisioning && stored.state == Provisioning
       case HasMachine => l.row.state == Provisioning && stored.state == Provisioning
       case Failing =>
         l.row.state in {Pending, Provisioning, Booting} && stored.state in {Pending, Provisioning, Booting}
       case Done(_) => true
  }

  lemma BeginSyncs(name: string, pool: Pool, poolId: nat, jobId: string, now: int, e: LaunchEnv)
    ensures var row := NewRow(poolId, pool, jobId, now); Synced(row, Begun(name, pool, row, e)) && RowOk(row, now)
  {
  }

  /** The stored row after the next step. */
  function StoredAfter(stored: Row, l: Launch, now: int, e: LaunchEnv): Row {
    var save := SaveMade(l, e);
    if save.Some? && save.value.Applied() then Next(l, now, e).row else stored
  }

  lemma RowsAfterStep(w: World, l: Launch, e: LaunchEnv)
    requires l.name in w.rows
    ensures Effect(w, l, e).rows == w.rows[l.name := StoredAfter(w.rows[l.name], l, w.now, e)]
  {
  }

  /** Every write of a launch is a step forward of the stored row. */
  lemma StepEvolves(stored: Row, l: Launch, now: int, e: LaunchEnv)
    requires !l.stage.Done? && Synced(stored, l)
    ensures Evolves(stored, StoredAfter(stored, l, now, e), now) && RowOk(StoredAfter(stored, l, now, e), now)
  {
  }

  lemma StepSyncs(stored: Row, l: Launch, now: int, e: LaunchEnv)
    requires !l.stage.Done? && Synced(stored, l)
    ensures !Next(l, now, e).stage.Done? ==> Synced(StoredAfter(stored, l, now, e), Next(l, now, e))
  {
  }

  // ---- what a launch comes to ----

  /** The first three effects, when they work: row, registration, and the row marked Provisioning. */
  lemma RunsToMarked(w: World, name: string, pool: Pool, row: Row, e: LaunchEnv)
    requires e.record.Ok? && e.mint.Minted? && e.mark.Ok?
    ensures var marked := row.(state := Provisioning, runnerId := e.mint.handle);
            Run(Begin(w, name, row, e), Begun(name, pool, row, e), e) ==
            Run(w.(rows := w.rows[name := marked],
                   runners := w.runners[Rid(pool.forgeId, e.mint.rid) := Runner(name, false, false)]),
                Launch(name, pool, marked, Marked), e)
  {
    var w0, l0 := Begin(w, name, row, e), Begun(name, pool, row, e);
    var w1, l1 := Effect(w0, l0, e), Next(l0, w.now, e);
    var w2, l2 := Effect(w1, l1, e), Next(l1, w.now, e);
    assert Run(w1, l1, e) == Run(w2, l2, e);
    assert w2.rows == w.rows[name := row.(state := Provisioning, runnerId := e.mint.handle)];
  }

  /** With every call working, the pool has one more machine, one more registration and one more row. The row knows
      both, is priced as the pool's size is now, and starts with a clean history. */
  lemma LaunchSucceeds(w: World, name: string, poolId: nat, pool: Pool, jobId: string, e: LaunchEnv)
    requires e.record.Ok? && e.mint.Minted? && e.mark.Ok? && e.bootstrap && e.create.Created? && e.boot.Ok?
    ensures var row := NewRow(poolId, pool, jobId, w.now);
            var k := Mid(pool.cloudId, e.create.m.id);
            var usd := match pool.sizeUSD case None => 0.0 case Some(price) => price;
            var (w', l') := Run(Begin(w, name, row, e), Begun(name, pool, row, e), e);
            && l'.stage == Done(true)
            && w'.rows == w.rows[name := Row(poolId, Booting, e.create.m.id, e.mint.handle, jobId, usd, 0, 0.0, w.now,
                                             None, None, None, None, None)]
            && w'.machines == w.machines[k := Machine(name, e.create.m.state,
                                                      if e.create.m.stamped then Some(w.now) else None,
                                                      Owner(w.self, pool.name).Tags())]
            && w'.runners == w.runners[Rid(pool.forgeId, e.mint.rid) := Runner(name, false, false)]
  {
    var row := NewRow(poolId, pool, jobId, w.now);
    var marked := row.(state := Provisioning, runnerId := e.mint.handle);
    RunsToMarked(w, name, pool, row, e);
    var wm := w.(rows := w.rows[name := marked],
                 runners := w.runners[Rid(pool.forgeId, e.mint.rid) := Runner(name, false, false)]);
    var lm := Launch(name, pool, marked, Marked);
    var w1, l1 := Effect(wm, lm, e), Next(lm, w.now, e);
    var w2, l2 := Effect(w1, l1, e), Next(l1, w.now, e);
    assert Run(w1, l1, e) == (w2, l2);
    assert w2.rows == w.rows[name := l2.row];
  }

  /** The launch up to the provider's refusal: the row is marked, the registration minted, nothing else changed. */
  lemma RunsToRefusal(w: World, name: string, pool: Pool, row: Row, e: LaunchEnv)
    requires e.record.Ok? && e.mint.Minted? && e.mark.Ok? && e.bootstrap && e.create == CreateFailed(None)
    ensures var marked := row.(state := Provisioning, runnerId := e.mint.handle);
            Run(Begin(w, name, row, e), Begun(name, pool, row, e), e) ==
            Run(w.(rows := w.rows[name := marked],
                   runners := w.runners[Rid(pool.forgeId, e.mint.rid) := Runner(name, false, false)]),
                Launch(name, pool, marked, RollingBack), e)
  {
    RunsToMarked(w, name, pool, row, e);
    var marked := row.(state := Provisioning, runnerId := e.mint.handle);
    var w0 := w.(rows := w.rows[name := marked],
                 runners := w.runners[Rid(pool.forgeId, e.mint.rid) := Runner(name, false, false)]);
    var l0 := Launch(name, pool, marked, Marked);
    assert Effect(w0, l0, e) == w0 && Next(l0, w.now, e) == l0.(stage := RollingBack);
  }

  /** Taking back `handle` undoes the minting of `rid` exactly when they are the same. */
  lemma TakenBackExactlyWhen(runners: map<Rid, Runner>, forge: nat, rid: string, handle: string, r: Runner)
    requires Rid(forge, rid) !in runners
    ensures runners[Rid(forge, rid) := r] - {Rid(forge, handle)} == runners <==> handle == rid
  {
    var after := runners[Rid(forge, rid) := r] - {Rid(forge, handle)};
    if handle != rid { assert Rid(forge, rid) in after; }
  }

  /** When the provider refuses, the launch reports failure, the row stays behind as Failed and the registration it
      minted is taken back exactly when the forge gave out its id. */
  lemma RefusedLaunchRollsBack(w: World, name: string, poolId: nat, pool: Pool, jobId: string, e: LaunchEnv)
    requires e.record.Ok? && e.mint.Minted? && e.mark.Ok? && e.bootstrap && e.create == CreateFailed(None)
    requires e.rollback.Ok? && e.fail.Ok?
    requires FreshRunner(w, pool, e.mint.rid)
    ensures var row := NewRow(poolId, pool, jobId, w.now);
            var (w', l') := Run(Begin(w, name, row, e), Begun(name, pool, row, e), e);
            && l'.stage == Done(false)
            && w'.rows == w.rows[name := Row(poolId, Failed, "", e.mint.handle, jobId, pool.HourlyRate(), 0, 0.0, w.now,
                                             None, None, None, None, None)]
            && w'.machines == w.machines
            && (e.mint.handle == e.mint.rid <==> w'.runners == w.runners)
  {
    var row := NewRow(poolId, pool, jobId, w.now);
    var marked := row.(state := Provisioning, runnerId := e.mint.handle);
    var minted := w.runners[Rid(pool.forgeId, e.mint.rid) := Runner(name, false, false)];
    RunsToRefusal(w, name, pool, row, e);
    FailingTail(w.(rows := w.rows[name := marked], runners := minted), Launch(name, pool, marked, RollingBack), e);
    TakenBackExactlyWhen(w.runners, pool.forgeId, e.mint.rid, e.mint.handle, Runner(name, false, false));
  }

  /** From the rollback on: the registration is removed by its handle and the row is written Failed. */
  lemma FailingTail(w: World, l: Launch, e: LaunchEnv)
    requires l.stage.RollingBack? && e.rollback.Ok? && e.fail.Ok?
    ensures var (w', l') := Run(w, l, e);
            && l'.stage == Done(false)
            && w'.rows == w.rows[l.name := l.row.(state := Failed)]
            && w'.machines == w.machines
            && w'.runners == w.runners - {Rid(l.pool.forgeId, l.row.runnerId)}
  {
    var w1, l1 := Effect(w, l, e), Next(l, w.now, e);
    var w2, l2 := Effect(w1, l1, e), Next(l1, w.now, e);
    assert Run(w1, l1, e) == (w2, l2);
  }

  /** The row of a launch that failed. */
  predicate FailedRow(r: Row, poolId: nat, jobId: string, providerId: string, runnerId: string, now: int) {
    r == Row(poolId, Failed, providerId, runnerId, jobId, r.hourly, 0, 0.0, now, None, None, None, None, None)
  }

  lemma FailingEnds(w: World, l: Launch, e: LaunchEnv)
    requires l.stage.Failing? && e.fail.Ok?
    ensures Run(w, l, e) == (w.(rows := w.rows[l.name := l.row.(state := Failed)]),
                             l.(row := l.row.(state := Failed), stage := Done(false)))
  {
    assert Run(Effect(w, l, e), Next(l, w.now, e), e) == (Effect(w, l, e), Next(l, w.now, e));
  }

  /** The forge mints no registration, or the write of it fails: nothing more is attempted, in particular no machine; a
      registration that was minted stays. */
  lemma FailedLaunchMakesNoMachine(w: World, name: string, poolId: nat, pool: Pool, jobId: string, e: LaunchEnv)
    requires e.record.Ok? && e.fail.Ok? && (e.mint == MintFailed(None) || (e.mint.Minted? && e.mark == Err(false)))
    ensures var row := NewRow(poolId, pool, jobId, w.now);
            var (w', l') := Run(Begin(w, name, row, e), Begun(name, pool, row, e), e);
            && l'.stage == Done(false) && w'.machines == w.machines
            && name in w'.rows && w'.rows == w.rows[name := w'.rows[name]]
            && FailedRow(w'.rows[name], poolId, jobId, "", if e.mint.Minted? then e.mint.handle else "", w.now)
            && w'.runners == if e.mint.Minted?
               then w.runners[Rid(pool.forgeId, e.mint.rid) := Runner(name, false, false)]
                             else w.runners
  {
    var row := NewRow(poolId, pool, jobId, w.now);
    var w0, l0 := Begin(w, name, row, e), Begun(name, pool, row, e);
    var w1, l1 := Effect(w0, l0, e), Next(l0, w.now, e);
    if e.mint.Minted? {
      var w2, l2 := Effect(w1, l1, e), Next(l1, w.now, e);
      assert Run(w0, l0, e) == Run(w1, l1, e) == Run(w2, l2, e);
      FailingEnds(w2, l2, e);
    } else {
      assert Run(w0, l0, e) == Run(w1, l1, e);
      FailingEnds(w1, l1, e);
    }
  }

  /** No bootstrap can be built, or the write that the machine is there fails: the row is left Failed with all that is
      known, and the sweeps will find the rest; nothing is taken back. */
  lemma FailedLaunchTakesNothingBack(w: World, name: string, poolId: nat, pool: Pool, jobId: string, e: LaunchEnv)
    requires e.record.Ok? && e.mint.Minted? && e.mark.Ok? && e.fail.Ok?
    requires !e.bootstrap || (e.create.Created? && e.boot == Err(false))
    ensures var row := NewRow(poolId, pool, jobId, w.now);
            var (w', l') := Run(Begin(w, name, row, e), Begun(name, pool, row, e), e);
            && l'.stage == Done(false)
            && name in w'.rows && w'.rows == w.rows[name := w'.rows[name]]
            && FailedRow(w'.rows[name], poolId, jobId, if e.bootstrap then e.create.m.id else "", e.mint.handle, w.now)
            && w'.runners == w.runners[Rid(pool.forgeId, e.mint.rid) := Runner(name, false, false)]
            && (if !e.bootstrap then w'.machines == w.machines
                else
                  && w'.machines.Keys == w.machines.Keys + {Mid(pool.cloudId, e.create.m.id)}
                  && w'.machines[Mid(pool.cloudId, e.create.m.id)].name == name)
  {
    var row := NewRow(poolId, pool, jobId, w.now);
    var marked := row.(state := Provisioning, runnerId := e.mint.handle);
    RunsToMarked(w, name, pool, row, e);
    var wm := w.(rows := w.rows[name := marked],
                 runners := w.runners[Rid(pool.forgeId, e.mint.rid) := Runner(name, false, false)]);
    UnfinishedTail(wm, Launch(name, pool, marked, Marked), e);
  }

  lemma UnfinishedTail(w: World, l: Launch, e: LaunchEnv)
    requires l.stage.Marked? && e.fail.Ok? && (!e.bootstrap || (e.create.Created? && e.boot == Err(false)))
    ensures var (w', l') := Run(w, l, e);
            && l'.stage == Done(false) && w'.runners == w.runners
            && w'.rows == w.rows[l.name := if e.bootstrap then l.row.(state := Failed, providerId := e.create.m.id)
                                           else l.row.(state := Failed)]
            && w'.machines == if e.bootstrap then AddMachine(w, l, e.create.m).machines else w.machines
  {
    var w1, l1 := Effect(w, l, e), Next(l, w.now, e);
    if e.bootstrap {
      var w2, l2 := Effect(w1, l1, e), Next(l1, w.now, e);
      assert Run(w, l, e) == Run(w1, l1, e) == Run(w2, l2, e);
      FailingEnds(w2, l2, e);
    } else {
      assert Run(w, l, e) == Run(w1, l1, e);
      FailingEnds(w1, l1, e);
    }
  }

  // ---- several launches ----

  /** One launch a pass attempts: for a job, or "" for a warm machine. */
  datatype Try = Try(name: string, jobId: string, e: LaunchEnv)

  /** Every call of a launch works. */
  predicate Works(e: LaunchEnv) {
    e.record.Ok? && e.mint.Minted? && e.mark.Ok? && e.bootstrap && e.create.Created? && e.boot.Ok?
  }

  function LaunchOne(w: World, poolId: nat, pool: Pool, t: Try): (World, Launch) {
    var row := NewRow(poolId, pool, t.jobId, w.now);
    Run(Begin(w, t.name, row, t.e), Begun(t.name, pool, row, t.e), t.e)
  }

  function LaunchAll(w: World, poolId: nat, pool: Pool, ts: seq<Try>): World {
    if ts == [] then w else LaunchOne(LaunchAll(w, poolId, pool, ts[..|ts| - 1]), poolId, pool, ts[|ts| - 1]).0
  }

  /** The launches made for a queue: in order, up to and including the first that fails. */
  predicate Follows(queue: seq<string>, ts: seq<Try>) {
    && |ts| <= |queue|
    && (forall i :: 0 <= i < |ts| ==> ts[i].jobId == queue[i])
    && (forall i :: 0 <= i < |ts| - 1 ==> Works(ts[i].e))
    && (|ts| == |queue| || (ts != [] && !Works(ts[|ts| - 1].e)))
  }

  /** A launch reports success exactly when every one of its calls worked. */
  lemma LaunchWorksExactly(w: World, poolId: nat, pool: Pool, t: Try)
    ensures LaunchOne(w, poolId, pool, t).1.stage == Done(Works(t.e))
  {
    var row := NewRow(poolId, pool, t.jobId, w.now);
    if t.e.record.Ok? { OutcomeFrom(Begin(w, t.name, row, t.e), Begun(t.name, pool, row, t.e), t.e); }
  }

  /** What is still needed for success at a stage. */
  predicate WorksFrom(s: Stage, e: LaunchEnv)
    decreases StepsLeft(s)
  {
    match s
    case Recorded => e.mint.Minted? && WorksFrom(HasCredential, e)
    case HasCredential => e.mark.Ok? && WorksFrom(Marked, e)
    case Marked => e.bootstrap && e.create.Created? && e.boot.Ok?
    case HasMachine => e.boot.Ok?
    case Done(ok) => ok
    case _ => false
  }

  lemma {:induction false} OutcomeFrom(w: World, l: Launch, e: LaunchEnv)
    ensures Run(w, l, e).1.stage == Done(WorksFrom(l.stage, e))
    decreases StepsLeft(l.stage)
  {
    if !l.stage.Done? { OutcomeFrom(Effect(w, l, e), Next(l, w.now, e), e); }
  }
}
