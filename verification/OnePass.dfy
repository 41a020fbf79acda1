/** When one pass of the reaper is enough (internal/controller/reap.go): the exact condition on the world it starts
    from, and a world that does not meet it. */
module OnePass {
  import opened Types
  import opened Instances
  import opened Worlds
  import opened Reaper
  import opened ReapPasses
  import Lifecycle

  /** The machine visits of a sweep in which no delete failed and every row they close could be saved. */
  predicate DeletesAndCloses(vs: seq<MachineVisit>) {
    forall m :: m in vs ==> m.delete.Ok? && m.close.Applied()
  }

  predicate SweepCloses(vs: seq<CloudVisit>) {
    forall v :: v in vs ==> DeletesAndCloses(v.machines)
  }

  /** Every call of the pass worked, the saves that close the rows of reaped machines included. */
  ghost predicate AllWorks(w: World, p: Pass) {
    Flawless(w, p) && SweepCloses(p.clouds.value)
  }

  // ---- the condition ----

  /** The sweep of the clouds will take a machine of this name away, and close its row with it. */
  ghost predicate LosesMachine(w: World, n: string) {
    exists k :: Unjustified(w, k) && k.cloud in w.clouds && w.machines[k].name == n
  }

  ghost predicate HasMachine(w: World, n: string) {
    exists k :: k in w.machines && Ours(w.self, w.machines[k]) && k.cloud in w.clouds && w.machines[k].name == n
  }

  predicate HasIdleRunner(w: World, n: string) {
    exists k :: k in w.runners && k.forge in w.forges && w.runners[k].name == n && !w.runners[k].busy
  }

  /** Row `n` is one that only the last sweep closes, after the sweep that would have taken what is left under its
      name. */
  ghost predicate TakesTwo(w: World, n: string) {
    && LiveRow(w, n) && Hollow(w, w.rows[n]) && !LosesMachine(w, n)
    && (HasMachine(w, n) || (w.rows[n].state != Failed && HasIdleRunner(w, n)))
  }

  // ---- the sweep of the clouds ----

  /** Where a machine is gone, its row is not live. */
  ghost predicate GoneAreClosed(w: World, w': World) {
    forall k :: k in w.machines && k !in w'.machines ==> !LiveRow(w', w.machines[k].name)
  }

  lemma VisitCloses(w: World, w': World, k: Mid, v: MachineVisit)
    requires GoneAreClosed(w, w') && k in w.machines && v.delete.Ok? && v.close.Applied()
    ensures GoneAreClosed(w, ReapMachine(w', k, w.machines[k], v))
  {
  }

  lemma {:induction false} ListingCloses(
    w: World, w': World, cloud: nat, listing: map<string, Machine>, vs: seq<MachineVisit>)
    requires GoneAreClosed(w, w') && DeletesAndCloses(vs)
    requires forall id :: id in listing ==> Mid(cloud, id) in w.machines && w.machines[Mid(cloud, id)] == listing[id]
    ensures GoneAreClosed(w, ReapListing(w', cloud, listing, vs))
  {
    if vs != [] {
      var v, before := vs[|vs| - 1], vs[..|vs| - 1];
      assert v in vs && forall m :: m in before ==> m in vs;
      ListingCloses(w, w', cloud, listing, before);
      if v.id in listing { VisitCloses(w, ReapListing(w', cloud, listing, before), Mid(cloud, v.id), v); }
    }
  }

  lemma {:induction false} CloudsClose(w: World, vs: seq<CloudVisit>)
    requires OneMachinePerName(w) && SweepCloses(vs)
    ensures GoneAreClosed(w, ReapClouds(w, vs))
  {
    if vs != [] {
      var v, before := vs[|vs| - 1], vs[..|vs| - 1];
      assert v in vs && forall u :: u in before ==> u in vs;
      CloudsClose(w, before);
      var u := ReapClouds(w, before);
      ReapCloudsKeeps(w, before);
      if v.resolved && v.listed { ListingCloses(w, u, v.cloud, Listing(u, v.cloud), v.machines); }
    }
  }

  /** A machine is gone after the sweep exactly when it was unjustified and on a configured cloud. */
  lemma GoneExactlyWhen(w: World, p: Pass, k: Mid)
    requires Inv(w) && Flawless(w, p) && k in w.machines
    ensures k !in CloudPhase(w, p).machines <==> Unjustified(w, k) && k.cloud in w.clouds
  {
    var vs := p.clouds.value;
    ReapCloudsKeeps(w, vs);
    if k !in CloudPhase(w, p).machines { RemovedWereVisited(w, vs, k); }
    if Unjustified(w, k) && k.cloud in w.clouds {
      var v := VisitOfCloud(vs, w.clouds.Keys, k.cloud);
      ReapCloudsComplete(w, vs, v, k);
    }
  }

  /** Under a name that loses a machine no live row is left; under any other the row and the machines stay. */
  lemma AfterClouds(w: World, p: Pass, n: string)
    requires Inv(w) && AllWorks(w, p)
    ensures var a := CloudPhase(w, p);
            if LosesMachine(w, n) then !LiveRow(a, n)
            else SameRow(w, a, n) && forall k :: k in w.machines && w.machines[k].name == n ==> k in a.machines
  {
    var a := CloudPhase(w, p);
    CloudsClose(w, p.clouds.value);
    CloudsCloseOnlyLost(w, p.clouds.value);
    forall k | k in w.machines ensures k !in a.machines <==> Unjustified(w, k) && k.cloud in w.clouds {
      GoneExactlyWhen(w, p, k);
    }
  }

  // ---- the sweep of the forges ----

  /** A live row that has not failed keeps its idle registrations, a failed one loses them. */
  lemma AfterForges(w: World, p: Pass, n: string)
    requires Inv(w) && Flawless(w, p) && LiveRow(CloudPhase(w, p), n)
    ensures var a, b := CloudPhase(w, p), ForgePhase(w, p);
            HasIdleRunner(b, n) <==> a.rows[n].state != Failed && HasIdleRunner(a, n)
  {
    var a, b := CloudPhase(w, p), ForgePhase(w, p);
    CloudSweepKeepsInv(w, p.clouds.value);
    assert Fits(a, n, a.rows[n]);
    PhaseFrames(w, p);
    ReapForgesKeeps(a, p.forges.value);
    NoOrphansLeft(w, p);
    if a.rows[n].state != Failed && HasIdleRunner(a, n) {
      var k :| k in a.runners && k.forge in a.forges && a.runners[k].name == n && !a.runners[k].busy;
      assert k in b.runners;
    }
  }

  // ---- the sweep of the rows ----

  lemma ClosedLateExactlyWhen(w: World, p: Pass, n: string)
    requires Inv(w) && Flawless(w, p)
    ensures var b := ForgePhase(w, p);
            ClosedLate(b, Reap(w, p), n) <==> LiveRow(b, n) && Hollow(b, b.rows[n])
  {
    var b := ForgePhase(w, p);
    RowSweepGuarantee(b, p.rows.value);
    if LiveRow(b, n) { var v := VisitOfRow(p.rows.value, AllLive(b), n); }
  }

  /** A row whose name loses no machine is hollow after the sweep of the clouds exactly when it was before. */
  lemma HollowBefore(w: World, a: World, n: string)
    requires RowsFit(w) && LiveRow(w, n) && a.pools == w.pools && a.now == w.now && Shrunk(w.machines, a.machines)
    requires forall k :: k in w.machines && w.machines[k].name == n ==> k in a.machines
    ensures Hollow(a, w.rows[n]) <==> Hollow(w, w.rows[n])
  {
    assert Fits(w, n, w.rows[n]);
  }

  // ---- the theorem ----

  lemma SparedStaysLive(w: World, p: Pass, n: string)
    requires Inv(w) && AllWorks(w, p) && LiveRow(w, n) && !LosesMachine(w, n)
    ensures LiveRow(ForgePhase(w, p), n) && ForgePhase(w, p).rows[n] == w.rows[n]
    ensures Hollow(ForgePhase(w, p), w.rows[n]) <==> Hollow(w, w.rows[n])
  {
    PhaseFrames(w, p);
    AfterClouds(w, p, n);
    HollowBefore(w, CloudPhase(w, p), n);
    HollowIgnoresRunners(CloudPhase(w, p), ForgePhase(w, p), w.rows[n]);
  }

  lemma HollowIgnoresRunners(a: World, b: World, r: Row)
    requires b == a.(runners := b.runners)
    ensures Hollow(b, r) <==> Hollow(a, r)
  {
  }

  lemma SparedIsHollow(w: World, p: Pass, n: string)
    requires Inv(w) && AllWorks(w, p) && LiveRow(w, n) && !LosesMachine(w, n)
    ensures ClosedLate(ForgePhase(w, p), Reap(w, p), n) <==> Hollow(w, w.rows[n])
  {
    SparedStaysLive(w, p, n);
    ClosedLateExactlyWhen(w, p, n);
  }

  lemma SparedLeaves(w: World, p: Pass, n: string)
    requires Inv(w) && AllWorks(w, p) && LiveRow(w, n) && !LosesMachine(w, n)
    ensures LeavesBehind(Reap(w, p), n) <==>
              HasMachine(w, n) || (w.rows[n].state != Failed && HasIdleRunner(w, n))
  {
    var a, b, c := CloudPhase(w, p), ForgePhase(w, p), Reap(w, p);
    PhaseFrames(w, p);
    AfterClouds(w, p, n);
    AfterForges(w, p, n);
    SameMachines(w, c, n);
    LeavesWhatIsThere(w, a, b, c, n);
  }

  lemma LeavesWhatIsThere(w: World, a: World, b: World, c: World, n: string)
    requires a.runners == w.runners && a.forges == w.forges && b.forges == w.forges
    requires c.runners == b.runners && c.forges == b.forges
    ensures LeavesBehind(c, n) <==> HasMachine(c, n) || HasIdleRunner(b, n)
    ensures HasIdleRunner(a, n) <==> HasIdleRunner(w, n)
  {
  }

  lemma TakesTwoExactlyWhen(w: World, p: Pass, n: string)
    requires Inv(w) && AllWorks(w, p)
    ensures var b, c := ForgePhase(w, p), Reap(w, p); ClosedLate(b, c, n) && LeavesBehind(c, n) <==> TakesTwo(w, n)
  {
    if LiveRow(w, n) && !LosesMachine(w, n) {
      SparedIsHollow(w, p, n);
      SparedLeaves(w, p, n);
    } else {
      PhaseFrames(w, p);
      AfterClouds(w, p, n);
    }
  }

  lemma SameMachines(w: World, c: World, n: string)
    requires c.self == w.self && c.clouds == w.clouds && Shrunk(w.machines, c.machines)
    requires forall k :: k in w.machines && w.machines[k].name == n ==> k in c.machines
    ensures HasMachine(c, n) <==> HasMachine(w, n)
  {
    if HasMachine(w, n) {
      var k :| k in w.machines && Ours(w.self, w.machines[k]) && k.cloud in w.clouds && w.machines[k].name == n;
      assert k in c.machines;
    }
  }

  /** One pass in which every call works leaves nothing for the reaper exactly when no row takes two: when there is no
      live row with nothing behind it that loses no machine to the sweep of the clouds, and that still has a machine,
      or, not being failed, an idle registration. */
  lemma OnePassSettlesExactlyWhen(w: World, p: Pass)
    requires Inv(w) && AllWorks(w, p)
    ensures Settled(Reap(w, p)) <==> forall n :: !TakesTwo(w, n)
  {
    var b, c := ForgePhase(w, p), Reap(w, p);
    SettledExactlyWhenNothingLeft(w, p);
    forall n ensures ClosedLate(b, c, n) && LeavesBehind(c, n) <==> TakesTwo(w, n) { TakesTwoExactlyWhen(w, p, n); }
  }

  // ---- a world that takes two ----

  /** One cloud, two forges, one pool; a launch that died before it created its machine has left a row, now past its
      grace period, and an idle registration. */
  function LateWorld(): World {
    World("c", map[1 := true], map[1 := true, 2 := true],
          map[1 := Pool("p", true, 1, 1, [], 1, 1, 7200, None)],
          map["rf-1" := Row(1, Provisioning, "", "r", "", 0.0, 0, 0.0, 0, None, None, None, None, None)],
          map[], map[Rid(1, "r") := Runner("rf-1", false, false)], GRACE + 1, Past({}, {}, {}))
  }

  function LatePass(): Pass {
    Pass(Some([CloudVisit(1, true, true, [])]),
         Some([ForgeVisit(1, true, true, [RunnerVisit("r", true, Ok)]), ForgeVisit(2, true, true, [])]),
         Some([RowVisit("rf-1", true, true, true, Ok)]))
  }

  lemma LateInv()
    ensures Inv(LateWorld())
  {
  }

  lemma OneEmptyCloud(w: World, cloud: nat)
    requires w.clouds.Keys == {cloud} && w.machines == map[]
    ensures var vs := [CloudVisit(cloud, true, true, [])]; CloudPass(w, vs) && ReapClouds(w, vs) == w
  {
    var none: seq<CloudVisit> := [];
    var v := CloudVisit(cloud, true, true, []);
    assert [v][..0] == none && CloudIds([v]) == [cloud];
    assert ListingsVisited(w, none) && ReapClouds(w, none) == w;
    assert Listing(w, cloud) == map[] && MachineIds([]) == [];
    assert Enumerates(MachineIds([]), Listing(w, cloud).Keys);
    assert ReapCloud(w, v) == w;
  }

  /** A forge whose only registration is spared. */
  lemma SparingForge(w: World, forge: nat, id: string)
    requires Lifecycle.Registrations(w, forge).Keys == {id} && Rid(forge, id) in w.runners
    requires !Orphan(w.rows, w.runners[Rid(forge, id)])
    ensures var v := ForgeVisit(forge, true, true, [RunnerVisit(id, true, Ok)]);
            ReapForge(w, v) == w && Enumerates(RunnerIds(v.runners), Lifecycle.Registrations(w, forge).Keys)
  {
    var none: seq<RunnerVisit> := [];
    var r, listing := RunnerVisit(id, true, Ok), Lifecycle.Registrations(w, forge);
    assert [r][..0] == none && RunnerIds([r]) == [id];
    assert ReapRegistrations(w, forge, listing, none) == w;
    assert id in listing && listing[id] == w.runners[Rid(forge, id)];
    assert ReapRegistrations(w, forge, listing, [r]) == w;
  }

  lemma BareForge(w: World, forge: nat)
    requires Lifecycle.Registrations(w, forge) == map[]
    ensures var v := ForgeVisit(forge, true, true, []);
            ReapForge(w, v) == w && Enumerates(RunnerIds(v.runners), Lifecycle.Registrations(w, forge).Keys)
  {
    var none: seq<RunnerVisit> := [];
    assert RunnerIds(none) == [];
    assert ReapRegistrations(w, forge, Lifecycle.Registrations(w, forge), none) == w;
    assert Lifecycle.Registrations(w, forge).Keys == {};
  }

  /** Two forges whose visits change nothing. */
  lemma TwoForges(w: World, u: ForgeVisit, v: ForgeVisit)
    requires w.forges.Keys == {u.forge, v.forge} && u.forge != v.forge
    requires ReapForge(w, u) == w && Enumerates(RunnerIds(u.runners), Lifecycle.Registrations(w, u.forge).Keys)
    requires ReapForge(w, v) == w && Enumerates(RunnerIds(v.runners), Lifecycle.Registrations(w, v.forge).Keys)
    ensures ForgePass(w, [u, v]) && ReapForges(w, [u, v]) == w
  {
    var none: seq<ForgeVisit> := [];
    assert [u, v][..1] == [u] && [u][..0] == none;
    assert RegistrationsVisited(w, none) && ReapForges(w, none) == w;
    assert ReapForges(w, [u]) == w && RegistrationsVisited(w, [u]);
    assert ForgeIds([u, v]) == [u.forge, v.forge];
  }

  lemma LateFirstForge()
    ensures var w, v := LateWorld(), LatePass().forges.value[0];
            ReapForge(w, v) == w && Enumerates(RunnerIds(v.runners), Lifecycle.Registrations(w, v.forge).Keys)
  {
    var w := LateWorld();
    assert Rid(1, "r") in w.runners;
    assert Lifecycle.Registrations(w, 1).Keys == {"r"};
    SparingForge(w, 1, "r");
  }

  lemma LateSecondForge()
    ensures var w, v := LateWorld(), LatePass().forges.value[1];
            ReapForge(w, v) == w && Enumerates(RunnerIds(v.runners), Lifecycle.Registrations(w, v.forge).Keys)
  {
    assert Lifecycle.Registrations(LateWorld(), 2) == map[];
    BareForge(LateWorld(), 2);
  }

  lemma LateForgeNames()
    ensures LateWorld().forges.Keys == {1, 2}
  {
  }

  /** Two visits that change nothing, whatever the world. */
  lemma LateForgesWith(w: World, u: ForgeVisit, v: ForgeVisit, vs: seq<ForgeVisit>)
    requires vs == [u, v] && u.forge == 1 && v.forge == 2 && w.forges.Keys == {1, 2}
    requires ReapForge(w, u) == w && Enumerates(RunnerIds(u.runners), Lifecycle.Registrations(w, u.forge).Keys)
    requires ReapForge(w, v) == w && Enumerates(RunnerIds(v.runners), Lifecycle.Registrations(w, v.forge).Keys)
    ensures ForgePass(w, vs) && ReapForges(w, vs) == w
  {
    TwoForges(w, u, v);
  }

  lemma LateForges()
    ensures var w, vs := LateWorld(), LatePass().forges.value; ForgePass(w, vs) && ReapForges(w, vs) == w
  {
    var w, vs := LateWorld(), LatePass().forges.value;
    LateFirstForge();
    LateSecondForge();
    LateForgeNames();
    LateForgesWith(w, vs[0], vs[1], vs);
  }

  lemma LateRows()
    ensures var w, vs := LateWorld(), LatePass().rows.value; Enumerates(RowNames(vs), AllLive(w))
  {
    assert AllLive(LateWorld()) == {"rf-1"} && RowNames(LatePass().rows.value) == ["rf-1"];
  }

  lemma AllWorksFrom(w: World, p: Pass)
    requires p.clouds.Some? && p.forges.Some? && p.rows.Some?
    requires CloudPass(w, p.clouds.value) && ReapClouds(w, p.clouds.value) == w
    requires ForgePass(w, p.forges.value) && ReapForges(w, p.forges.value) == w
    requires Enumerates(RowNames(p.rows.value), AllLive(w))
    requires forall v :: v in p.clouds.value ==> CloudVisitOk(v) && DeletesAndCloses(v.machines)
    requires forall v :: v in p.forges.value ==> ForgeVisitOk(v)
    requires forall v :: v in p.rows.value ==> RowVisitOk(v)
    ensures AllWorks(w, p)
  {
  }

  lemma LateVisitsWork()
    ensures var p := LatePass();
            && (forall v :: v in p.clouds.value ==> CloudVisitOk(v) && DeletesAndCloses(v.machines))
            && (forall v :: v in p.forges.value ==> ForgeVisitOk(v))
            && (forall v :: v in p.rows.value ==> RowVisitOk(v))
  {
  }

  lemma LateCloudPass()
    ensures var w, vs := LateWorld(), LatePass().clouds.value; CloudPass(w, vs) && ReapClouds(w, vs) == w
  {
    assert LateWorld().clouds.Keys == {1};
    OneEmptyCloud(LateWorld(), 1);
  }

  lemma LatePassAllWorks()
    ensures AllWorks(LateWorld(), LatePass())
  {
    LateCloudPass();
    LateForges();
    LateRows();
    LateVisitsWork();
    AllWorksFrom(LateWorld(), LatePass());
  }

  /** One pass is not always enough, even if everything works: here the sweep of the forges spares the registration for
      the sake of a row that the sweep of the rows then closes. */
  lemma LatePassFallsShort()
    ensures AllWorks(LateWorld(), LatePass()) && !Settled(Reap(LateWorld(), LatePass()))
  {
    var w := LateWorld();
    assert Rid(1, "r") in w.runners;
    assert HasIdleRunner(w, "rf-1");
    assert TakesTwo(w, "rf-1");
    LateInv();
    LatePassAllWorks();
    OnePassSettlesExactlyWhen(w, LatePass());
  }
}
