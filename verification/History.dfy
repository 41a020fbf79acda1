/** What the history of one row looks like over any run in which sweeps do not overtake a launch: states move forward,
    stamps keep their first value, a closed row never changes again, and the bill only grows. */
module History {
  import opened Types
  import opened Instances
  import opened Worlds
  import opened Launches
  import opened Passes
  import opened System
  import opened Accounting
  import Billing
  import Lifecycle
  import ReapPasses
  import Reaper
  import WriteAhead

  /** Rows are well formed, a launch in flight is in step with its row, and lost names stay lost. */
  ghost predicate InStep(s: Sys) {
    && SysInv(s)
    && RowsOk(s.w)
    && s.w.rows.Keys !! s.w.past.retired
    && (s.pass.Some? && s.pass.value.flight.Some? ==>
          var l := s.pass.value.flight.value; l.name in s.w.rows && Synced(s.w.rows[l.name], l))
  }

  /** Rows that stay have evolved; names that are lost stay lost. */
  ghost predicate Forward(w: World, w': World) {
    && RowsEvolve(w, w')
    && w.past.retired <= w'.past.retired
    && (forall n :: n in w.rows && n !in w'.rows ==> n in w'.past.retired)
    && w.now <= w'.now
  }

  lemma UnchangedRowsEvolve(w: World, w': World)
    requires w'.rows == w.rows
    ensures RowsEvolve(w, w')
  {
  }

  lemma OutsideInStep(s: Sys, o: Outside)
    requires InStep(s) && MayHappen(s.w, o)
    ensures InStep(s.(w := OutsideEffect(s.w, o))) && Forward(s.w, OutsideEffect(s.w, o))
  {
    var w' := OutsideEffect(s.w, o);
    OutsideKeeps(s, o);
    OutsideDrifts(s.w, o);
    UnchangedRowsEvolve(s.w, w');
    forall n | n in w'.rows ensures RowOk(w'.rows[n], w'.now) {
      assert RowOk(s.w.rows[n], s.w.now);
    }
  }

  lemma AdvanceInStep(w: World, poolId: nat, listed: bool, vs: seq<AdvanceVisit>)
    requires RowsOk(w) && poolId in w.pools
    ensures var w' := AdvancePool(w, poolId, listed, vs);
            && RowsOk(w') && RowsEvolve(w, w') && w'.rows.Keys == w.rows.Keys
            && w'.past.retired == w.past.retired && w'.now == w.now
  {
    var pool := w.pools[poolId];
    var snap := SnapshotOf(w, pool.forgeId, listed);
    var w1 := Lifecycle.Witness(w, poolId, snap);
    AdvanceAllEvolves(w1, pool, snap, vs);
    AdvanceAllFrame(w1, pool, snap, vs);
  }

  lemma BeginInStep(w: World, p: ScalePass, name: string, e: LaunchEnv)
    requires RowsOk(w) && w.rows.Keys !! w.past.retired
    requires PassOk(w, p) && p.queue != [] && FreshName(w, name)
    ensures var s' := AfterBegin(w, p, name, e);
            && RowsOk(s'.w) && s'.w.rows.Keys !! s'.w.past.retired && Forward(w, s'.w)
            && (s'.pass.Some? && s'.pass.value.flight.Some? ==>
                  var l := s'.pass.value.flight.value; l.name in s'.w.rows && Synced(s'.w.rows[l.name], l))
  {
    BeginSyncs(name, w.pools[p.poolId], p.poolId, p.queue[0], w.now, e);
    UnchangedRowsEvolve(w, w);
    var s' := AfterBegin(w, p, name, e);
    forall n | n in w.rows ensures n in s'.w.rows && s'.w.rows[n] == w.rows[n] {
    }
  }

  lemma ProceedInStep(w: World, p: ScalePass, e: LaunchEnv)
    requires RowsOk(w) && w.rows.Keys !! w.past.retired
    requires p.flight.Some? && !p.flight.value.stage.Done? && p.flight.value.name in w.rows
    requires Synced(w.rows[p.flight.value.name], p.flight.value)
    ensures var s' := AfterProceed(w, p, e);
            && RowsOk(s'.w) && s'.w.rows.Keys !! s'.w.past.retired && Forward(w, s'.w)
            && (s'.pass.Some? && s'.pass.value.flight.Some? ==>
                  var l := s'.pass.value.flight.value; l.name in s'.w.rows && Synced(s'.w.rows[l.name], l))
  {
    var l := p.flight.value;
    RowsAfterStep(w, l, e);
    StepEvolves(w.rows[l.name], l, w.now, e);
    StepSyncs(w.rows[l.name], l, w.now, e);
    NextFrame(l, w.now, e);
    EffectFrame(w, l, e);
    UnchangedRowsEvolve(w, w);
  }

  lemma ControlInStep(s: Sys, c: Control)
    requires InStep(s) && MayControl(s, c)
    ensures InStep(AfterControl(s, c)) && Forward(s.w, AfterControl(s, c).w)
  {
    ControlKeeps(s, c);
    UnchangedRowsEvolve(s.w, s.w);
    match c
    case Advance(poolId, listed, visits) => AdvanceInStep(s.w, poolId, listed, visits);
    case Decide(_, _, _, _) =>
    case BeginLaunch(name, e) => BeginInStep(s.w, s.pass.value, name, e);
    case Proceed(e) => ProceedInStep(s.w, s.pass.value, e);
    case Crash =>
  }

  lemma SweepInStep(s: Sys, v: Sweep)
    requires InStep(s) && Timely(s, Sweeping(v))
    ensures InStep(s.(w := SweepEffect(s.w, v))) && Forward(s.w, SweepEffect(s.w, v))
  {
    var w' := SweepEffect(s.w, v);
    SweepEffectKeeps(s, v);
    forall n | n in s.w.rows
      ensures n in w'.rows && Evolves(s.w.rows[n], w'.rows[n], s.w.now) && RowOk(w'.rows[n], w'.now)
    {
      Reaper.SweptEvolves(s.w, w', n);
    }
    if s.pass.Some? && s.pass.value.flight.Some? {
      var l := s.pass.value.flight.value;
      match v
      case Clouds(vs) => WriteAhead.CloudSweepSpares(s.w, l, vs);
      case Forges(vs) => WriteAhead.ForgeSweepSpares(s.w, l, vs);
      case Rows(vs) => WriteAhead.RowSweepSpares(s.w, l, vs);
    }
  }

  lemma OperatorInStep(s: Sys, a: Operator)
    requires InStep(s) && MayOperate(s, a)
    ensures InStep(s.(w := OperatorEffect(s.w, a))) && Forward(s.w, OperatorEffect(s.w, a))
  {
    OperatorKeeps(s, a);
    UnchangedRowsEvolve(s.w, s.w);
    if a.DestroyMachine? {
      DestroyInstanceEvolves(s.w, a.name, a.op);
      DestroyInstanceFrame(s.w, a.name, a.op);
    }
  }

  lemma StepInStep(s: Sys, step: Step)
    requires InStep(s) && Enabled(s, step) && Timely(s, step)
    ensures InStep(After(s, step)) && Forward(s.w, After(s, step).w)
  {
    match step
    case Env(o) => OutsideInStep(s, o);
    case Ctl(c) => ControlInStep(s, c);
    case Sweeping(v) => SweepInStep(s, v);
    case Op(a) => OperatorInStep(s, a);
  }

  ghost predicate TimelyRun(ss: seq<Sys>, steps: seq<Step>) {
    IsRun(ss, steps) && forall i :: 0 <= i < |steps| ==> Timely(ss[i], steps[i])
  }

  lemma {:induction false} RunInStep(ss: seq<Sys>, steps: seq<Step>, i: nat)
    requires TimelyRun(ss, steps) && InStep(ss[0]) && i < |ss|
    ensures InStep(ss[i])
  {
    if i > 0 {
      RunInStep(ss, steps, i - 1);
      StepInStep(ss[i - 1], steps[i - 1]);
    }
  }

  lemma InitialInStep(s: Sys)
    requires Initial(s)
    ensures InStep(s)
  {
  }

  // ---- launches are left alone, over runs ----

  function LaunchedMachine(l: Launch): Mid { Mid(l.pool.cloudId, l.row.providerId) }

  /** The machine the launch knows of has not vanished. */
  predicate CopyStands(w: World, l: Launch) {
    l.row.providerId != "" ==> LaunchedMachine(l) in w.machines
  }

  /** What keeps a launch from being disturbed: sweeps come while it is young, and the outside does not take away the
      machine it has just made. */
  predicate Undisturbed(s: Sys, step: Step) {
    s.pass.Some? && s.pass.value.flight.Some? ==>
      var l := s.pass.value.flight.value;
      && (step.Sweeping? ==> WriteAhead.Young(s.w, l))
      && (step.Env? && step.o.MachineChanges? && step.o.to.None? ==>
            l.row.providerId == "" || step.o.k != LaunchedMachine(l))
  }

  ghost predicate Standing(s: Sys) {
    InStep(s) && (s.pass.Some? && s.pass.value.flight.Some? ==> CopyStands(s.w, s.pass.value.flight.value))
  }

  lemma StandingProtects(s: Sys)
    requires Standing(s) && s.pass.Some? && s.pass.value.flight.Some?
    requires WriteAhead.Young(s.w, s.pass.value.flight.value)
    ensures WriteAhead.Protected(s.w, s.pass.value.flight.value)
  {
  }

  lemma OutsideKeepsStanding(s: Sys, o: Outside)
    requires Standing(s) && MayHappen(s.w, o) && Undisturbed(s, Env(o))
    requires s.pass.Some? && s.pass.value.flight.Some?
    ensures CopyStands(OutsideEffect(s.w, o), s.pass.value.flight.value)
  {
  }

  lemma ProceedKeepsStanding(w: World, l: Launch, e: LaunchEnv)
    requires CopyStands(w, l)
    ensures CopyStands(Effect(w, l, e), Next(l, w.now, e))
  {
  }

  lemma SweepKeepsStanding(s: Sys, v: Sweep)
    requires Standing(s) && s.pass.Some? && s.pass.value.flight.Some?
    requires WriteAhead.Young(s.w, s.pass.value.flight.value)
    ensures CopyStands(SweepEffect(s.w, v), s.pass.value.flight.value)
  {
    var l := s.pass.value.flight.value;
    StandingProtects(s);
    assert Fits(s.w, l.name, l.row);
    match v
    case Clouds(vs) => WriteAhead.CloudSweepSpares(s.w, l, vs);
    case Forges(vs) => WriteAhead.ForgeSweepSpares(s.w, l, vs);
    case Rows(vs) => WriteAhead.RowSweepSpares(s.w, l, vs);
  }

  lemma ControlKeepsStanding(s: Sys, c: Control)
    requires Standing(s) && MayControl(s, c)
    ensures var s' := AfterControl(s, c);
            s'.pass.Some? && s'.pass.value.flight.Some? ==> CopyStands(s'.w, s'.pass.value.flight.value)
  {
    if c.Proceed? { ProceedKeepsStanding(s.w, s.pass.value.flight.value, c.e); }
  }

  lemma UndisturbedIsTimely(s: Sys, step: Step)
    requires Standing(s) && Undisturbed(s, step)
    ensures Timely(s, step)
  {
    if step.Sweeping? && s.pass.Some? && s.pass.value.flight.Some? { StandingProtects(s); }
  }

  lemma StepKeepsStanding(s: Sys, step: Step)
    requires Standing(s) && Enabled(s, step) && Undisturbed(s, step)
    ensures Standing(After(s, step))
  {
    UndisturbedIsTimely(s, step);
    StepInStep(s, step);
    if step.Ctl? {
      ControlKeepsStanding(s, step.c);
    } else if s.pass.Some? && s.pass.value.flight.Some? {
      match step
      case Env(o) => OutsideKeepsStanding(s, o);
      case Sweeping(v) => SweepKeepsStanding(s, v);
      case Op(_) =>
    }
  }

  lemma {:induction false} RunKeepsStanding(ss: seq<Sys>, steps: seq<Step>, i: nat)
    requires IsRun(ss, steps) && Initial(ss[0]) && i < |ss|
    requires forall j :: 0 <= j < |steps| ==> Undisturbed(ss[j], steps[j])
    ensures Standing(ss[i])
  {
    if i == 0 {
      InitialInStep(ss[0]);
    } else {
      RunKeepsStanding(ss, steps, i - 1);
      StepKeepsStanding(ss[i - 1], steps[i - 1]);
    }
  }

  /** In every state of such a run, a whole pass of the reaper that finds a young launch under way takes neither its
      row nor its machine nor its registration. */
  lemma YoungLaunchesAreSpared(ss: seq<Sys>, steps: seq<Step>, i: nat, p: ReapPasses.Pass)
    requires IsRun(ss, steps) && Initial(ss[0]) && i < |ss|
    requires forall j :: 0 <= j < |steps| ==> Undisturbed(ss[j], steps[j])
    requires ss[i].pass.Some? && ss[i].pass.value.flight.Some?
    requires WriteAhead.Young(ss[i].w, ss[i].pass.value.flight.value)
    ensures WriteAhead.Spared(ss[i].w, ReapPasses.Reap(ss[i].w, p), ss[i].pass.value.flight.value)
  {
    RunKeepsStanding(ss, steps, i);
    StandingProtects(ss[i]);
    WriteAhead.ReapSparesLaunch(ss[i].w, ss[i].pass.value.flight.value, p);
  }

  // ---- when Deleted is not final ----

  /** The launch of row `n` makes its next effect, and that saves the row. */
  predicate OwnLaunchSaves(s: Sys, step: Step, n: string) {
    && step.Ctl? && step.c.Proceed? && s.pass.Some? && s.pass.value.flight.Some?
    && var l := s.pass.value.flight.value;
       l.name == n && SaveMade(l, step.c.e).Some? && SaveMade(l, step.c.e).value.Applied()
  }

  lemma ControlReopens(s: Sys, c: Control, n: string)
    requires SysInv(s) && MayControl(s, c) && n in s.w.rows && s.w.rows[n].state == Deleted
    ensures n in AfterControl(s, c).w.rows
    ensures LiveRow(AfterControl(s, c).w, n) <==> OwnLaunchSaves(s, Ctl(c), n)
  {
    match c
    case Advance(poolId, listed, visits) => AdvanceSkipsClosed(s.w, poolId, listed, visits, n);
    case Decide(_, _, _, _) =>
    case BeginLaunch(_, _) =>
    case Proceed(e) => ProceedReopens(s.w, s.pass.value, e, n);
    case Crash =>
  }

  lemma ProceedReopens(w: World, p: ScalePass, e: LaunchEnv, n: string)
    requires p.flight.Some? && InFlight(w, p.flight.value) && n in w.rows && w.rows[n].state == Deleted
    ensures var l, w' := p.flight.value, AfterProceed(w, p, e).w;
            && n in w'.rows
            && (LiveRow(w', n) <==> l.name == n && SaveMade(l, e).Some? && SaveMade(l, e).value.Applied())
  {
    var l := p.flight.value;
    RowsAfterStep(w, l, e);
    if l.name == n { WriteAhead.LaunchReopensItsRow(w, l, e); }
  }

  lemma AdvanceSkipsClosed(w: World, poolId: nat, listed: bool, vs: seq<AdvanceVisit>, n: string)
    requires poolId in w.pools && Enumerates(VisitNames(vs), LiveNames(w, poolId)) && n in w.rows && !LiveRow(w, n)
    ensures var w' := AdvancePool(w, poolId, listed, vs); n in w'.rows && w'.rows[n] == w.rows[n]
  {
    var pool := w.pools[poolId];
    var snap := SnapshotOf(w, pool.forgeId, listed);
    AdvanceAllFrame(Lifecycle.Witness(w, poolId, snap), pool, snap, vs);
  }

  lemma OutsideLeavesRows(w: World, o: Outside)
    ensures var w' := OutsideEffect(w, o); w'.rows == w.rows && w'.past.retired == w.past.retired
  {
  }

  lemma OperatorLeavesClosed(w: World, a: Operator, n: string)
    requires n in w.rows && !LiveRow(w, n)
    ensures !LiveRow(OperatorEffect(w, a), n)
  {
    if a.DestroyMachine? { DestroyInstanceFrame(w, a.name, a.op); }
  }

  lemma OperatorLosesOnRecord(w: World, a: Operator)
    requires w.rows.Keys !! w.past.retired
    ensures var w' := OperatorEffect(w, a); w'.rows.Keys !! w'.past.retired && LosesOnRecord(w, w')
  {
    if a.DestroyMachine? { DestroyInstanceFrame(w, a.name, a.op); }
  }

  /** Of all steps there are, exactly one kind opens a closed row again: its own launch, not yet over, saves it. */
  lemma StepReopensExactlyWhen(s: Sys, step: Step, n: string)
    requires SysInv(s) && Enabled(s, step) && n in s.w.rows && s.w.rows[n].state == Deleted
    ensures LiveRow(After(s, step).w, n) <==> OwnLaunchSaves(s, step, n)
  {
    match step
    case Env(o) => OutsideLeavesRows(s.w, o);
    case Ctl(c) => ControlReopens(s, c, n);
    case Sweeping(v) => SweepEffectKeeps(s, v);
    case Op(a) => OperatorLeavesClosed(s.w, a, n);
  }

  /** No name has both a row and lost one. */
  ghost predicate Apart(s: Sys) {
    SysInv(s) && s.w.rows.Keys !! s.w.past.retired
  }

  ghost predicate LosesOnRecord(w: World, w': World) {
    w.past.retired <= w'.past.retired && forall n :: n in w.rows && n !in w'.rows ==> n in w'.past.retired
  }

  lemma ControlKeepsApart(s: Sys, c: Control)
    requires Apart(s) && MayControl(s, c)
    ensures Apart(AfterControl(s, c)) && LosesOnRecord(s.w, AfterControl(s, c).w)
  {
    ControlKeeps(s, c);
    if c.Advance? {
      var pool := s.w.pools[c.poolId];
      var snap := SnapshotOf(s.w, pool.forgeId, c.listed);
      AdvanceAllFrame(Lifecycle.Witness(s.w, c.poolId, snap), pool, snap, c.visits);
    }
    if c.Proceed? {
      RowsAfterStep(s.w, s.pass.value.flight.value, c.e);
      EffectFrame(s.w, s.pass.value.flight.value, c.e);
    }
  }

  lemma StepKeepsApart(s: Sys, step: Step)
    requires Apart(s) && Enabled(s, step)
    ensures Apart(After(s, step)) && LosesOnRecord(s.w, After(s, step).w)
  {
    StepKeepsSysInv(s, step);
    match step
    case Env(o) => OutsideLeavesRows(s.w, o);
    case Ctl(c) => ControlKeepsApart(s, c);
    case Sweeping(v) => SweepEffectKeeps(s, v);
    case Op(a) => OperatorLosesOnRecord(s.w, a);
  }

  lemma {:induction false} RunKeepsApart(ss: seq<Sys>, steps: seq<Step>, i: nat)
    requires IsRun(ss, steps) && Apart(ss[0]) && i < |ss|
    ensures Apart(ss[i])
  {
    if i > 0 {
      RunKeepsApart(ss, steps, i - 1);
      StepKeepsApart(ss[i - 1], steps[i - 1]);
    }
  }

  /** In any run at all, a name that is lost never names a row again. */
  lemma {:induction false} LostForGood(ss: seq<Sys>, steps: seq<Step>, i: nat, j: nat, n: string)
    requires IsRun(ss, steps) && Apart(ss[0]) && i <= j < |ss| && n in ss[i].w.past.retired
    ensures n in ss[j].w.past.retired && n !in ss[j].w.rows
  {
    RunKeepsApart(ss, steps, j);
    if i < j {
      LostForGood(ss, steps, i, j - 1, n);
      RunKeepsApart(ss, steps, j - 1);
      StepKeepsApart(ss[j - 1], steps[j - 1]);
    }
  }

  /** In any run at all, sweeps that overtake a launch included: a row once Deleted is live later only if in between
      its own launch saved it, and each such save does open it again. */
  lemma {:induction false} ClosedRowsAreReopenedByTheirLaunch(
    ss: seq<Sys>, steps: seq<Step>, i: nat, j: nat, n: string)
    requires IsRun(ss, steps) && Initial(ss[0]) && i <= j < |ss|
    requires n in ss[i].w.rows && ss[i].w.rows[n].state == Deleted
    ensures i < j ==> (LiveRow(ss[i + 1].w, n) <==> OwnLaunchSaves(ss[i], steps[i], n))
    ensures LiveRow(ss[j].w, n) ==> exists k :: i <= k < j && OwnLaunchSaves(ss[k], steps[k], n)
    decreases j - i
  {
    InitialInv(ss[0]);
    if i < j {
      RunKeepsApart(ss, steps, i);
      StepKeepsApart(ss[i], steps[i]);
      StepReopensExactlyWhen(ss[i], steps[i], n);
      if n !in ss[i + 1].w.rows {
        LostForGood(ss, steps, i + 1, j, n);
      } else if !LiveRow(ss[i + 1].w, n) {
        ClosedRowsAreReopenedByTheirLaunch(ss, steps, i + 1, j, n);
      }
    }
  }

  // ---- the history of one row ----

  predicate Kept(before: Option<int>, after: Option<int>) { before.Some? ==> after == before }

  /** `r'` is `r` at a later time. */
  predicate Descends(r: Row, r': Row) {
    && MayFollow(r.state, r'.state)
    && (r.state == Deleted ==> r' == r)
    && (r'.state == Deleted ==> r'.destroyedAt.Some?)
    && r'.poolId == r.poolId && r'.jobId == r.jobId && r'.hourly == r.hourly && r'.createdAt == r.createdAt
    && (r.providerId != "" ==> r'.providerId == r.providerId)
    && (r.runnerId != "" ==> r'.runnerId == r.runnerId)
    && Kept(r.activeAt, r'.activeAt) && Kept(r.readyAt, r'.readyAt) && Kept(r.claimedAt, r'.claimedAt)
    && Kept(r.finishedAt, r'.finishedAt) && Kept(r.destroyedAt, r'.destroyedAt)
  }

  lemma DescendsTransitive(a: Row, b: Row, c: Row)
    requires Descends(a, b) && Descends(b, c)
    ensures Descends(a, c)
  {
  }

  lemma RowInBetween(ss: seq<Sys>, steps: seq<Step>, i: nat, j: nat, n: string)
    requires TimelyRun(ss, steps) && InStep(ss[0]) && i < j < |ss| && n in ss[i].w.rows && n in ss[j].w.rows
    ensures n in ss[i + 1].w.rows
  {
    RunInStep(ss, steps, i);
    StepInStep(ss[i], steps[i]);
    if n !in ss[i + 1].w.rows { LostForGood(ss, steps, i + 1, j, n); }
  }

  lemma ForwardDescends(w: World, w': World, n: string)
    requires Forward(w, w') && RowsOk(w') && n in w.rows && n in w'.rows
    ensures Descends(w.rows[n], w'.rows[n])
  {
  }

  lemma NextDescends(ss: seq<Sys>, steps: seq<Step>, i: nat, n: string)
    requires TimelyRun(ss, steps) && InStep(ss[0]) && i < |steps| && n in ss[i].w.rows && n in ss[i + 1].w.rows
    ensures Descends(ss[i].w.rows[n], ss[i + 1].w.rows[n])
  {
    RunInStep(ss, steps, i);
    StepInStep(ss[i], steps[i]);
    ForwardDescends(ss[i].w, ss[i + 1].w, n);
  }

  /** From `i` on row `n` goes on existing, each state of it descending from the one before. */
  lemma {:induction false} DescendsThroughout(ss: seq<Sys>, i: nat, j: nat, n: string)
    requires i <= j < |ss| && n in ss[i].w.rows && Descends(ss[i].w.rows[n], ss[i].w.rows[n])
    requires forall k :: i <= k < j && n in ss[k].w.rows ==>
      n in ss[k + 1].w.rows && Descends(ss[k].w.rows[n], ss[k + 1].w.rows[n])
    ensures n in ss[j].w.rows && Descends(ss[i].w.rows[n], ss[j].w.rows[n])
  {
    if i < j {
      DescendsThroughout(ss, i, j - 1, n);
      DescendsTransitive(ss[i].w.rows[n], ss[j - 1].w.rows[n], ss[j].w.rows[n]);
    }
  }

  /** Over any run: leaving out the side states Draining and Failed a row's states never go back, Deleted is final and
      stamped, every stamp keeps its first value, and the row stays the same machine's, pool's and job's. */
  lemma RowsMoveForward(ss: seq<Sys>, steps: seq<Step>, i: nat, j: nat, n: string)
    requires TimelyRun(ss, steps) && InStep(ss[0]) && i <= j < |ss| && n in ss[i].w.rows && n in ss[j].w.rows
    ensures Descends(ss[i].w.rows[n], ss[j].w.rows[n])
  {
    RunInStep(ss, steps, i);
    assert RowOk(ss[i].w.rows[n], ss[i].w.now);
    forall k | i <= k < j && n in ss[k].w.rows
      ensures n in ss[k + 1].w.rows && Descends(ss[k].w.rows[n], ss[k + 1].w.rows[n])
    {
      RowInBetween(ss, steps, k, j, n);
      NextDescends(ss, steps, k, n);
    }
    DescendsThroughout(ss, i, j, n);
  }

  /** The visible states of a row over a run, read off in order, never decrease in rank. */
  lemma VisibleStatesAreOrdered(ss: seq<Sys>, steps: seq<Step>, i: nat, j: nat, n: string)
    requires TimelyRun(ss, steps) && Initial(ss[0]) && i <= j < |ss| && n in ss[i].w.rows && n in ss[j].w.rows
    requires !Hidden(ss[i].w.rows[n].state) && !Hidden(ss[j].w.rows[n].state)
    ensures Rank(ss[i].w.rows[n].state) <= Rank(ss[j].w.rows[n].state)
  {
    InitialInStep(ss[0]);
    RowsMoveForward(ss, steps, i, j, n);
  }

  /** Over any run a row's bill never drops; once the row is closed it is constant. */
  lemma {:induction false} BillsOnlyGrow(ss: seq<Sys>, steps: seq<Step>, i: nat, j: nat, n: string)
    requires TimelyRun(ss, steps) && InStep(ss[0]) && i <= j < |ss| && n in ss[i].w.rows && n in ss[j].w.rows
    ensures EstimatedCost(ss[i].w.rows[n], ss[i].w.now) <= EstimatedCost(ss[j].w.rows[n], ss[j].w.now)
    ensures ss[i].w.rows[n].state == Deleted ==>
              EstimatedCost(ss[i].w.rows[n], ss[i].w.now) == EstimatedCost(ss[j].w.rows[n], ss[j].w.now)
    decreases j - i
  {
    RunInStep(ss, steps, i);
    RunInStep(ss, steps, j);
    if ss[i].w.rows[n].state == Deleted {
      RowsMoveForward(ss, steps, i, j, n);
      Billing.ClosedBillIsConstant(ss[i].w.rows[n], ss[i].w.now, ss[i].w.now, ss[j].w.now);
    }
    if i < j {
      RowInBetween(ss, steps, i, j, n);
      StepInStep(ss[i], steps[i]);
      RunInStep(ss, steps, i + 1);
      OneStepBill(ss[i], ss[i + 1], n);
      BillsOnlyGrow(ss, steps, i + 1, j, n);
    }
  }

  lemma OneStepBill(s: Sys, s': Sys, n: string)
    requires InStep(s) && InStep(s') && Forward(s.w, s'.w) && n in s.w.rows && n in s'.w.rows
    ensures EstimatedCost(s.w.rows[n], s.w.now) <= EstimatedCost(s'.w.rows[n], s'.w.now)
  {
    var r, r' := s.w.rows[n], s'.w.rows[n];
    assert RowOk(r', s.w.now);
    Billing.BillNeverDrops(r, r', s.w.now, s'.w.now);
  }

  // ---- what a row costs ----

  /** Row `n` begins with this step: a launch writes it ahead. */
  ghost predicate WrittenAhead(s: Sys, step: Step, n: string) {
    && step.Ctl? && step.c.BeginLaunch? && step.c.name == n
    && s.pass.Some? && s.pass.value.queue != [] && s.pass.value.poolId in s.w.pools
  }

  /** The row that a launch for `job` writes, priced as the size of its pool is at that moment. */
  predicate StartsAs(r: Row, poolId: nat, sizeUSD: Option<real>, job: string, now: int) {
    && r == Row(poolId, Pending, "", "", job, r.hourly, 0, 0.0, now, None, None, None, None, None)
    && r.hourly == match sizeUSD case None => 0.0 case Some(usd) => usd
  }

  lemma RowsStartAtLaunch(s: Sys, step: Step, n: string)
    requires Apart(s) && Enabled(s, step) && n !in s.w.rows && n in After(s, step).w.rows
    ensures WrittenAhead(s, step, n)
    ensures var p := s.pass.value;
            StartsAs(After(s, step).w.rows[n], p.poolId, s.w.pools[p.poolId].sizeUSD, p.queue[0], s.w.now)
  {
    match step
    case Env(o) => OutsideLeavesRows(s.w, o);
    case Ctl(c) => ControlStartsRows(s, c, n);
    case Sweeping(v) => SweepEffectKeeps(s, v);
    case Op(a) => OperatorStartsNone(s.w, a);
  }

  lemma OperatorStartsNone(w: World, a: Operator)
    ensures OperatorEffect(w, a).rows.Keys <= w.rows.Keys
  {
    if a.DestroyMachine? { DestroyInstanceFrame(w, a.name, a.op); }
  }

  lemma ControlStartsRows(s: Sys, c: Control, n: string)
    requires Apart(s) && MayControl(s, c) && n !in s.w.rows && n in AfterControl(s, c).w.rows
    ensures WrittenAhead(s, Ctl(c), n)
    ensures var p := s.pass.value;
            StartsAs(AfterControl(s, c).w.rows[n], p.poolId, s.w.pools[p.poolId].sizeUSD, p.queue[0], s.w.now)
  {
    if c.Advance? {
      var pool := s.w.pools[c.poolId];
      var snap := SnapshotOf(s.w, pool.forgeId, c.listed);
      AdvanceAllFrame(Lifecycle.Witness(s.w, c.poolId, snap), pool, snap, c.visits);
    }
    if c.Proceed? { RowsAfterStep(s.w, s.pass.value.flight.value, c.e); }
  }

  /** Over any timely run: each row begins with a launch, and from then on costs what its pool's size cost at that
      moment, per hour and for a minute at least as soon as the machine was seen running; whatever becomes of the price.
      */
  lemma RowsKeepTheirPrice(ss: seq<Sys>, steps: seq<Step>, i: nat, j: nat, n: string)
    requires TimelyRun(ss, steps) && Initial(ss[0]) && i < j < |ss|
    requires n !in ss[i].w.rows && n in ss[i + 1].w.rows && n in ss[j].w.rows
    ensures WrittenAhead(ss[i], steps[i], n)
    ensures var p := ss[i].pass.value; var pool := ss[i].w.pools[p.poolId]; var r := ss[j].w.rows[n];
            && r.poolId == p.poolId && r.jobId == p.queue[0] && r.createdAt == ss[i].w.now
            && r.hourly == (match pool.sizeUSD case None => 0.0 case Some(usd) => usd)
            && (r.activeAt.Some? && r.hourly > 0.0 ==> EstimatedCost(r, ss[j].w.now) >= r.hourly / 60.0)
  {
    InitialInStep(ss[0]);
    InitialInv(ss[0]);
    RunKeepsApart(ss, steps, i);
    RowsStartAtLaunch(ss[i], steps[i], n);
    RowsMoveForward(ss, steps, i + 1, j, n);
    RunInStep(ss, steps, j);
    var r := ss[j].w.rows[n];
    if r.activeAt.Some? && r.hourly > 0.0 { Billing.AtLeastOneMinute(r, ss[j].w.now); }
  }
}
