/** Runs in which the code does not do what its comments say (internal/store/models.go, internal/controller): each
    starts from an empty deployment with one pool that keeps one machine warm. */
module Witnesses {
  import opened Types
  import opened Instances
  import opened Worlds
  import opened Launches
  import opened Passes
  import opened System
  import Evidence
  import Lifecycle
  import OnePass
  import ReapPasses
  import Reaper

  /** Some run ends in this state. */
  ghost predicate Arises(s: Sys) {
    exists ss, steps :: IsRun(ss, steps) && Initial(ss[0]) && ss[|ss| - 1] == s
  }

  lemma FirstArises(s: Sys)
    requires Initial(s)
    ensures Arises(s)
  {
    var ss, steps: seq<Step> := [s], [];
    assert IsRun(ss, steps) && ss[0] == s == ss[|ss| - 1];
  }

  lemma NextArises(s: Sys, step: Step)
    requires Arises(s) && Enabled(s, step)
    ensures Arises(After(s, step))
  {
    var ss, steps :| IsRun(ss, steps) && Initial(ss[0]) && ss[|ss| - 1] == s;
    var s' := After(s, step);
    var all, more := ss + [s'], steps + [step];
    assert IsRun(all, more) && all[0] == ss[0] && all[|all| - 1] == s';
  }

  // ---- one machine is launched ----

  const NAME := "rf-1"

  const MACHINE := Mid(1, "m")

  const RUNNER := Rid(1, "r")

  const FINE := Lifecycle.DestroyEnv(Ok, Ok, Ok, Ok)

  function OnePool(forge: nat): Pool { Pool("p", true, forge, 1, [], 1, 1, 7200, None) }

  /** Two forges, one of them used; a row, a machine and a registration as given. */
  function Small(forge: nat, rows: map<string, Row>, machines: map<Mid, Machine>, runners: map<Rid, Runner>, now: int,
                 seen: set<Sighting>, issued: set<Mid>): World
  {
    World("c", map[1 := true], map[1 := true, 2 := true], map[1 := OnePool(forge)], rows, machines, runners, now,
          Past({}, seen, issued))
  }

  function FirstRow(state: State, provider: string, runner: string): Row {
    Row(1, state, provider, runner, "", 0.0, 0, 0.0, 0, None, None, None, None, None)
  }

  function LaunchAnswers(): LaunchEnv {
    LaunchEnv(Ok, Minted("r", "r"), Ok, true, Created(NewMachine("m", Running, true)), Ok, Ok, Ok)
  }

  function FirstMachine(): Machine { Machine(NAME, Running, Some(0), Owner("c", "p").Tags()) }

  function Flying(row: Row, stage: Stage): Option<ScalePass> {
    Some(ScalePass(1, [], Some(Launch(NAME, OnePool(1), row, stage))))
  }

  function Empty(): Sys { Sys(Small(1, map[], map[], map[], 0, {}, {}), None) }

  function Decided(): Sys { Empty().(pass := Some(ScalePass(1, [""], None))) }

  function Written(): Sys {
    var r := FirstRow(Pending, "", "");
    Sys(Small(1, map[NAME := r], map[], map[], 0, {}, {}), Flying(r, Recorded))
  }

  function Credited(now: int): Sys {
    Sys(Small(1, map[NAME := FirstRow(Pending, "", "")], map[], map[RUNNER := Runner(NAME, false, false)], now, {}, {}),
        Flying(FirstRow(Pending, "", "r"), HasCredential))
  }

  function MarkedAt(now: int): World {
    Small(1, map[NAME := FirstRow(Provisioning, "", "r")], map[], map[RUNNER := Runner(NAME, false, false)], now, {},
          {})
  }

  function Provisioned(): Sys { Sys(MarkedAt(0), Flying(FirstRow(Provisioning, "", "r"), Marked)) }

  function Made(): Sys {
    Sys(Small(1, map[NAME := FirstRow(Provisioning, "", "r")], map[MACHINE := FirstMachine()],
              map[RUNNER := Runner(NAME, false, false)], 0, {}, {MACHINE}),
        Flying(FirstRow(Provisioning, "m", "r"), HasMachine))
  }

  function Booted(busy: bool): Sys {
    Sys(Small(1, map[NAME := FirstRow(Booting, "m", "r")], map[MACHINE := FirstMachine()],
              map[RUNNER := Runner(NAME, busy, busy)], 0, {}, {MACHINE}), None)
  }

  lemma EmptyArises()
    ensures Arises(Empty())
  {
    FirstArises(Empty());
  }

  lemma DecidedFollows()
    ensures var step := Ctl(Decide(1, [], [], [])); Enabled(Empty(), step) && After(Empty(), step) == Decided()
  {
    var w := Empty().w;
    assert LiveNames(w, 1) == {} && RowsIn(w, []) == [];
    var p := Decision(w, OnePool(1), [], [], []);
    assert p.forJobs == [] && p.warm == 1;
    assert LaunchQueue(p) == [""];
  }

  lemma WrittenFollows()
    ensures var step := Ctl(BeginLaunch(NAME, LaunchAnswers()));
            Enabled(Decided(), step) && After(Decided(), step) == Written()
  {
    assert [""][1..] == [];
    assert NAME[..3] == NAME_PREFIX;
  }

  lemma CreditedFollows()
    ensures var step := Ctl(Proceed(LaunchAnswers()));
            Enabled(Written(), step) && After(Written(), step) == Credited(0)
  {
  }

  lemma ProvisionedFollows()
    ensures var step := Ctl(Proceed(LaunchAnswers()));
            Enabled(Credited(0), step) && After(Credited(0), step) == Provisioned()
  {
  }

  lemma MadeFollows()
    ensures var step := Ctl(Proceed(LaunchAnswers()));
            Enabled(Provisioned(), step) && After(Provisioned(), step) == Made()
  {
  }

  lemma BootedFollows()
    ensures var step := Ctl(Proceed(LaunchAnswers())); Enabled(Made(), step) && After(Made(), step) == Booted(false)
  {
  }

  lemma BusyFollows()
    ensures var step := Env(RunnerChanges(RUNNER, Some(Runner(NAME, true, true))));
            Enabled(Booted(false), step) && After(Booted(false), step) == Booted(true)
  {
  }

  lemma CreditedArises()
    ensures Arises(Credited(0))
  {
    EmptyArises();
    DecidedFollows();
    NextArises(Empty(), Ctl(Decide(1, [], [], [])));
    WrittenFollows();
    NextArises(Decided(), Ctl(BeginLaunch(NAME, LaunchAnswers())));
    CreditedFollows();
    NextArises(Written(), Ctl(Proceed(LaunchAnswers())));
  }

  lemma ProvisionedArises()
    ensures Arises(Provisioned())
  {
    CreditedArises();
    ProvisionedFollows();
    NextArises(Credited(0), Ctl(Proceed(LaunchAnswers())));
  }

  lemma BootedArises()
    ensures Arises(Booted(true))
  {
    ProvisionedArises();
    MadeFollows();
    NextArises(Provisioned(), Ctl(Proceed(LaunchAnswers())));
    BootedFollows();
    NextArises(Made(), Ctl(Proceed(LaunchAnswers())));
    BusyFollows();
    NextArises(Booted(false), Env(RunnerChanges(RUNNER, Some(Runner(NAME, true, true)))));
  }

  // ---- Deleted is not final ----

  /** The row closed by a sweep that has waited for the grace period to pass. */
  function Overtaken(): Sys {
    var r := FirstRow(Pending, "", "").(state := Deleted, destroyedAt := Some(Reaper.GRACE + 1));
    Credited(Reaper.GRACE + 1).(w := Credited(Reaper.GRACE + 1).w.(rows := map[NAME := r]))
  }

  lemma LateFollows()
    ensures var step := Env(Tick(Reaper.GRACE + 1));
            Enabled(Credited(0), step) && After(Credited(0), step) == Credited(Reaper.GRACE + 1)
  {
  }

  lemma OvertakenFollows()
    ensures var step := Sweeping(Rows([Reaper.RowVisit(NAME, true, true, true, Ok)]));
            Enabled(Credited(Reaper.GRACE + 1), step) && After(Credited(Reaper.GRACE + 1), step) == Overtaken()
  {
    var w, v := Credited(Reaper.GRACE + 1).w, Reaper.RowVisit(NAME, true, true, true, Ok);
    var none: seq<Reaper.RowVisit> := [];
    assert [v][..0] == none && Reaper.ReapRows(w, none) == w;
    assert Reaper.ReapRows(w, [v]) == Reaper.ReapRow(w, v);
    assert w.rows[NAME := Overtaken().w.rows[NAME]] == Overtaken().w.rows;
  }

  /** In this state of a run the row is Deleted, and its launch's next step makes it live again. */
  lemma DeletedIsNotFinal()
    ensures Arises(Overtaken()) && Overtaken().w.rows[NAME].state == Deleted
    ensures var step := Ctl(Proceed(LaunchAnswers()));
            Enabled(Overtaken(), step) && LiveRow(After(Overtaken(), step).w, NAME)
  {
    CreditedArises();
    LateFollows();
    NextArises(Credited(0), Env(Tick(Reaper.GRACE + 1)));
    OvertakenFollows();
    NextArises(Credited(Reaper.GRACE + 1), Sweeping(Rows([Reaper.RowVisit(NAME, true, true, true, Ok)])));
  }

  // ---- one pass of the reaper is not always enough ----

  lemma CrashFollows()
    ensures Enabled(Provisioned(), Ctl(Crash)) && After(Provisioned(), Ctl(Crash)) == Sys(MarkedAt(0), None)
  {
  }

  lemma LaterFollows()
    ensures var step := Env(Tick(Reaper.GRACE + 1));
            Enabled(Sys(MarkedAt(0), None), step)
            && After(Sys(MarkedAt(0), None), step) == Sys(OnePass.LateWorld(), None)
  {
  }

  /** In this state of a run a pass of the reaper in which every call works leaves something behind. */
  lemma OnePassMayFallShort()
    ensures Arises(Sys(OnePass.LateWorld(), None))
    ensures OnePass.AllWorks(OnePass.LateWorld(), OnePass.LatePass())
    ensures !ReapPasses.Settled(ReapPasses.Reap(OnePass.LateWorld(), OnePass.LatePass()))
  {
    ProvisionedArises();
    CrashFollows();
    NextArises(Provisioned(), Ctl(Crash));
    LaterFollows();
    NextArises(Sys(MarkedAt(0), None), Env(Tick(Reaper.GRACE + 1)));
    OnePass.LatePassFallsShort();
  }

  // ---- states do not form a line ----

  function WorkingRow(state: State, finished: Option<int>): Row {
    FirstRow(state, "m", "r").(activeAt := Some(0), claimedAt := Some(0), finishedAt := finished)
  }

  function Working(state: State, finished: Option<int>, forge: nat): Sys {
    Sys(Small(forge, map[NAME := WorkingRow(state, finished)], map[MACHINE := FirstMachine()],
              map[RUNNER := Runner(NAME, true, true)], 0, {Sighting(NAME, RUNNER)}, {MACHINE}), None)
  }

  function AllFine(): AdvanceVisit { AdvanceVisit(NAME, Lifecycle.AdvanceEnv(true, None, Ok, FINE)) }

  lemma VisitsTheOneRow(w: World)
    requires w.rows.Keys == {NAME} && w.rows[NAME].Live() && w.rows[NAME].poolId == 1
    ensures Enumerates(VisitNames([AllFine()]), LiveNames(w, 1))
  {
    assert VisitNames([AllFine()]) == [NAME];
    assert LiveNames(w, 1) == {NAME};
  }

  /** A pass over the one row. */
  lemma OneVisit(w: World, pool: Pool, snap: Lifecycle.Snapshot)
    ensures AdvanceAll(w, pool, snap, [AllFine()]) == AdvanceOne(w, pool, snap, AllFine())
  {
    var none: seq<AdvanceVisit> := [];
    assert [AllFine()][..0] == none && AdvanceAll(w, pool, snap, none) == w;
  }

  /** The one registration, read. */
  function BusyReading(): Lifecycle.Snapshot { Lifecycle.Listed(map["r" := Runner(NAME, true, true)]) }

  lemma ReadsTheOneRunner(w: World)
    requires w.runners == map[RUNNER := Runner(NAME, true, true)]
    ensures SnapshotOf(w, 1, true) == BusyReading() && SnapshotOf(w, 2, true) == Lifecycle.Listed(map[])
  {
    assert RUNNER in w.runners;
    assert Lifecycle.Registrations(w, 1).Keys == {"r"};
    assert Lifecycle.Registrations(w, 2) == map[];
  }

  lemma SeesTheOneRow(w: World)
    requires w.rows.Keys == {NAME} && w.rows[NAME].Live() && w.rows[NAME].poolId == 1 && w.rows[NAME].runnerId == "r"
    requires 1 in w.pools && w.pools[1].forgeId == 1 && w.past.seen <= {Sighting(NAME, RUNNER)}
    ensures Lifecycle.Witness(w, 1, BusyReading()) == w.(past := w.past.(seen := {Sighting(NAME, RUNNER)}))
  {
    assert LiveNames(w, 1) == {NAME};
  }

  /** What a pass does to the one row when nothing is removed. */
  lemma OneRowWritten(w: World, pool: Pool, snap: Lifecycle.Snapshot, r': Row)
    requires w.rows.Keys == {NAME} && w.rows[NAME].Live() && 1 in w.pools && w.pools[1] == pool
    requires SnapshotOf(w, pool.forgeId, true) == snap
    requires var w1 := Lifecycle.Witness(w, 1, snap);
             FateIn(w1, pool, snap, AllFine()) == Lifecycle.Fate(r', false, false)
    ensures AdvancePool(w, 1, true, [AllFine()]) == Lifecycle.Witness(w, 1, snap).(rows := map[NAME := r'])
  {
    var w1 := Lifecycle.Witness(w, 1, snap);
    OneVisit(w1, pool, snap);
    assert w1.rows[NAME := r'] == map[NAME := r'];
  }

  lemma WritesBusy(r: Row)
    requires r == FirstRow(Booting, "m", "r") || r == WorkingRow(Draining, Some(0))
    ensures Lifecycle.Advance(r, OnePool(1), Some(FirstMachine()), BusyReading(), 0, AllFine().e) ==
            Lifecycle.Fate(WorkingRow(Busy, r.finishedAt), false, false)
  {
    var up := Lifecycle.Sighted(r, FirstMachine(), 0);
    assert up == r.(activeAt := Some(0));
    assert Stamp(up, Busy, 0) == WorkingRow(Busy, r.finishedAt);
  }

  lemma PassWritesBusy(w: World)
    requires w.rows.Keys == {NAME} && w.rows[NAME] in {FirstRow(Booting, "m", "r"), WorkingRow(Draining, Some(0))}
    requires w.pools == map[1 := OnePool(1)] && w.past.seen <= {Sighting(NAME, RUNNER)} && w.now == 0
    requires w.machines == map[MACHINE := FirstMachine()] && w.runners == map[RUNNER := Runner(NAME, true, true)]
    ensures var r := w.rows[NAME];
            AdvancePool(w, 1, true, [AllFine()]) ==
            w.(rows := map[NAME := WorkingRow(Busy, r.finishedAt)], past := w.past.(seen := {Sighting(NAME, RUNNER)}))
  {
    var r := w.rows[NAME];
    ReadsTheOneRunner(w);
    SeesTheOneRow(w);
    WritesBusy(r);
    assert MachineFor(w, OnePool(1), r) == Some(FirstMachine());
    OneRowWritten(w, OnePool(1), BusyReading(), WorkingRow(Busy, r.finishedAt));
  }

  lemma PassFollows(s: Sys, w': World)
    requires s.pass.None? && Serving(s.w, 1) && Enumerates(VisitNames([AllFine()]), LiveNames(s.w, 1))
    requires AdvancePool(s.w, 1, true, [AllFine()]) == w'
    ensures var step := Ctl(Advance(1, true, [AllFine()])); Enabled(s, step) && After(s, step) == Sys(w', None)
  {
  }

  lemma WorkingFollows()
    ensures var step := Ctl(Advance(1, true, [AllFine()]));
            Enabled(Booted(true), step) && After(Booted(true), step) == Working(Busy, None, 1)
  {
    VisitsTheOneRow(Booted(true).w);
    PassWritesBusy(Booted(true).w);
    PassFollows(Booted(true), Working(Busy, None, 1).w);
  }

  lemma WorkingArises()
    ensures Arises(Working(Busy, None, 1))
  {
    BootedArises();
    WorkingFollows();
    NextArises(Booted(true), Ctl(Advance(1, true, [AllFine()])));
  }

  /** A destroy on request whose delete fails. */
  function Refused(): OperatorEnv {
    OperatorEnv(true, true, true, true, Ok, Lifecycle.DestroyEnv(Ok, Err(false), Ok, Ok))
  }

  lemma DrainsTheRow()
    ensures var r := WorkingRow(Busy, None);
            Lifecycle.Destroy(r, r, true, 0, Refused().destroy) ==
            Lifecycle.Fate(WorkingRow(Draining, Some(0)), false, false)
  {
  }

  lemma DrainingFollows()
    ensures var step := Op(DestroyMachine(NAME, Refused()));
            Enabled(Working(Busy, None, 1), step)
            && After(Working(Busy, None, 1), step) == Working(Draining, Some(0), 1)
  {
    var w := Working(Busy, None, 1).w;
    DrainsTheRow();
    assert w.rows[NAME := WorkingRow(Draining, Some(0))] == map[NAME := WorkingRow(Draining, Some(0))];
  }

  lemma BackToBusy()
    ensures AdvancePool(Working(Draining, Some(0), 1).w, 1, true, [AllFine()]) == Working(Busy, Some(0), 1).w
  {
    var w := Working(Draining, Some(0), 1).w;
    assert w.rows[NAME] == WorkingRow(Draining, Some(0)) && w.rows.Keys == {NAME};
    PassWritesBusy(w);
  }

  lemma ServesTheOnePool(s: Sys)
    requires s.w.pools == map[1 := OnePool(1)] && s.w.clouds == map[1 := true]
             && s.w.forges == map[1 := true, 2 := true]
    ensures Serving(s.w, 1)
  {
  }

  lemma BackToBusyFollows(s: Sys)
    requires s == Working(Draining, Some(0), 1)
    ensures var step := Ctl(Advance(1, true, [AllFine()]));
            Enabled(s, step) && After(s, step) == Working(Busy, Some(0), 1)
  {
    VisitsTheOneRow(s.w);
    ServesTheOnePool(s);
    BackToBusy();
    PassFollows(s, Working(Busy, Some(0), 1).w);
  }

  /** In this state of a run the row is Draining, and the next pass sets it back to Busy. */
  lemma StatesDoNotFormALine()
    ensures Arises(Working(Draining, Some(0), 1))
    ensures var s, step := Working(Draining, Some(0), 1), Ctl(Advance(1, true, [AllFine()]));
            && s.w.rows[NAME].state == Draining && Enabled(s, step)
            && After(s, step).w.rows == map[NAME := WorkingRow(Busy, Some(0))]
  {
    WorkingArises();
    DrainingFollows();
    NextArises(Working(Busy, None, 1), Op(DestroyMachine(NAME, Refused())));
    BackToBusyFollows(Working(Draining, Some(0), 1));
  }

  // ---- a pool that moves to another forge ----

  lemma MovedFollows()
    ensures var step := Op(SavePool(1, OnePool(2)));
            Enabled(Working(Busy, None, 1), step) && After(Working(Busy, None, 1), step) == Working(Busy, None, 2)
  {
    assert LiveNames(Working(Busy, None, 1).w, 1) == {NAME};
  }

  lemma RemovesTheMachine()
    ensures var f := Lifecycle.Advance(WorkingRow(Busy, None), OnePool(2), Some(FirstMachine()),
                                       Lifecycle.Listed(map[]),
                                       0, AllFine().e);
            f.machineGone && f.runnerGone
  {
  }

  lemma MovedIsLost()
    ensures var w := Working(Busy, None, 2).w;
            var w' := AdvancePool(w, 1, true, [AllFine()]);
            w'.machines == map[] && w'.runners == w.runners
  {
    var w, snap := Working(Busy, None, 2).w, Lifecycle.Listed(map[]);
    ReadsTheOneRunner(w);
    MovedVisit(Lifecycle.Witness(w, 1, snap));
    OneVisit(Lifecycle.Witness(w, 1, snap), OnePool(2), snap);
  }

  /** The visit, whatever has been noted of the past. */
  lemma MovedVisit(w: World)
    requires var v := Working(Busy, None, 2).w; w == v.(past := w.past)
    ensures var w' := AdvanceOne(w, OnePool(2), Lifecycle.Listed(map[]), AllFine());
            w'.machines == map[] && w'.runners == w.runners
  {
    assert MachineFor(w, OnePool(2), w.rows[NAME]) == Some(FirstMachine());
    RemovesTheMachine();
    assert w.machines - {MACHINE} == map[];
    assert w.runners - {Rid(2, "r")} == w.runners;
  }

  /** In this state of a run the pool has just been moved to another forge, and its one machine is at work for the forge
      it was on; the next pass removes the machine, in the middle of its job. */
  lemma MovedPoolLosesItsWorker()
    ensures Arises(Working(Busy, None, 2))
    ensures var s, step := Working(Busy, None, 2), Ctl(Advance(1, true, [AllFine()]));
            && Evidence.UpAndYoung(s.w, s.w.pools[1], NAME) && s.w.rows[NAME].state == Busy
            && Enabled(s, step) && After(s, step).w.machines == map[]
            && Sighting(NAME, RUNNER) in s.w.past.seen
            && RUNNER in After(s, step).w.runners && After(s, step).w.runners[RUNNER].busy
  {
    WorkingArises();
    MovedFollows();
    NextArises(Working(Busy, None, 1), Op(SavePool(1, OnePool(2))));
    VisitsTheOneRow(Working(Busy, None, 2).w);
    MovedIsLost();
    assert RUNNER in Working(Busy, None, 2).w.runners;
  }
}
