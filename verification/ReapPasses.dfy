/** A whole Reap pass (internal/controller/reap.go): what it converges to, and why it leaves a launch under way
    alone. */
module ReapPasses {
  import opened Types
  import opened Worlds
  import opened Reaper
  import Lifecycle

  /** The three sweeps of one pass; None when the sweep could not read its tables and did nothing. */
  datatype Pass = Pass(clouds: Option<seq<CloudVisit>>, forges: Option<seq<ForgeVisit>>, rows: Option<seq<RowVisit>>)

  ghost function CloudPhase(w: World, p: Pass): World {
    if p.clouds.Some? then ReapClouds(w, p.clouds.value) else w
  }

  ghost function ForgePhase(w: World, p: Pass): World {
    if p.forges.Some? then ReapForges(CloudPhase(w, p), p.forges.value) else CloudPhase(w, p)
  }

  ghost function Reap(w: World, p: Pass): World {
    if p.rows.Some? then ReapRows(ForgePhase(w, p), p.rows.value) else ForgePhase(w, p)
  }

  /** Each sweep visits everything it found, once. */
  ghost predicate Whole(w: World, p: Pass) {
    && (p.clouds.Some? ==> CloudPass(w, p.clouds.value))
    && (p.forges.Some? ==> ForgePass(CloudPhase(w, p), p.forges.value))
    && (p.rows.Some? ==> Enumerates(RowNames(p.rows.value), AllLive(ForgePhase(w, p))))
  }

  /** A pass in which every call worked. */
  ghost predicate Flawless(w: World, p: Pass) {
    && Whole(w, p) && p.clouds.Some? && p.forges.Some? && p.rows.Some?
    && (forall v :: v in p.clouds.value ==> CloudVisitOk(v))
    && (forall v :: v in p.forges.value ==> ForgeVisitOk(v))
    && (forall v :: v in p.rows.value ==> RowVisitOk(v))
  }

  lemma ReapKeepsInv(w: World, p: Pass)
    requires Inv(w)
    ensures Inv(Reap(w, p))
  {
    if p.clouds.Some? { CloudSweepKeepsInv(w, p.clouds.value); }
    if p.forges.Some? { ForgeSweepKeepsInv(CloudPhase(w, p), p.forges.value); }
    if p.rows.Some? { RowSweepKeepsInv(ForgePhase(w, p), p.rows.value); }
  }

  // ---- convergence ----

  /** Nothing is left for the reaper: every machine of ours on a configured cloud is justified, no registration is
      orphaned, no live row is hollow. */
  ghost predicate Settled(w: World) {
    && (forall k :: k in w.machines && Ours(w.self, w.machines[k]) && k.cloud in w.clouds ==>
          Justified(w, w.machines[k]))
    && (forall k :: k in w.runners && k.forge in w.forges ==> !Orphan(w.rows, w.runners[k]))
    && (forall n :: n in w.rows && w.rows[n].Live() ==> !Hollow(w, w.rows[n]))
  }

  lemma VisitOfCloud(vs: seq<CloudVisit>, clouds: set<nat>, c: nat) returns (v: CloudVisit)
    requires Enumerates(CloudIds(vs), clouds) && c in clouds
    ensures v in vs && v.cloud == c
  {
    assert c in CloudIds(vs);
    var i :| 0 <= i < |vs| && CloudIds(vs)[i] == c;
    v := vs[i];
  }

  lemma VisitOfForge(vs: seq<ForgeVisit>, forges: set<nat>, f: nat) returns (v: ForgeVisit)
    requires Enumerates(ForgeIds(vs), forges) && f in forges
    ensures v in vs && v.forge == f
  {
    assert f in ForgeIds(vs);
    var i :| 0 <= i < |vs| && ForgeIds(vs)[i] == f;
    v := vs[i];
  }

  lemma VisitOfRow(vs: seq<RowVisit>, names: set<string>, n: string) returns (v: RowVisit)
    requires Enumerates(RowNames(vs), names) && n in names
    ensures v in vs && v.name == n
  {
    assert n in RowNames(vs);
    var i :| 0 <= i < |vs| && RowNames(vs)[i] == n;
    v := vs[i];
  }

  /** After a flawless cloud sweep every machine of ours on a configured cloud is justified. */
  lemma CloudPhaseJustifies(w: World, p: Pass)
    requires Inv(w) && Flawless(w, p)
    ensures var a := CloudPhase(w, p);
            forall k :: k in a.machines && Ours(w.self, a.machines[k]) && k.cloud in w.clouds ==>
              Justified(a, a.machines[k])
  {
    var a := CloudPhase(w, p);
    CloudSweepGuarantee(w, p.clouds.value);
    forall k | k in a.machines && Ours(w.self, a.machines[k]) && k.cloud in w.clouds
      ensures Justified(a, a.machines[k])
    {
      var v := VisitOfCloud(p.clouds.value, w.clouds.Keys, k.cloud);
    }
  }

  /** After a flawless pass no live row is hollow. */
  lemma RowPhaseFills(w: World, p: Pass)
    requires Inv(w) && Flawless(w, p)
    ensures var c := Reap(w, p); forall n :: n in c.rows && c.rows[n].Live() ==> !Hollow(c, c.rows[n])
  {
    var b, c := ForgePhase(w, p), Reap(w, p);
    RowSweepGuarantee(b, p.rows.value);
    forall n | n in c.rows && c.rows[n].Live()
      ensures !Hollow(c, c.rows[n])
    {
      assert n in b.rows && c.rows[n] == b.rows[n];
      var v := VisitOfRow(p.rows.value, AllLive(b), n);
    }
  }

  /** What one flawless pass has achieved: live rows are not hollow, and machines of ours on configured clouds that
      still have a live row are justified. */
  ghost predicate HalfSettled(w: World) {
    && (forall n :: n in w.rows && w.rows[n].Live() ==> !Hollow(w, w.rows[n]))
    && (forall k :: (k in w.machines && Ours(w.self, w.machines[k]) && k.cloud in w.clouds
                     && LiveRow(w, w.machines[k].name)) ==> Justified(w, w.machines[k]))
  }

  /** What each phase leaves alone. */
  lemma PhaseFrames(w: World, p: Pass)
    requires OneMachinePerName(w)
    ensures var a, b, c := CloudPhase(w, p), ForgePhase(w, p), Reap(w, p);
            && a == w.(rows := a.rows, machines := a.machines) && Shrunk(w.machines, a.machines)
            && b == a.(runners := b.runners) && Shrunk(a.runners, b.runners)
            && c == b.(rows := c.rows)
            && RowsSwept(w.rows, a.rows, w.now) && RowsSwept(b.rows, c.rows, w.now)
  {
    var a, b := CloudPhase(w, p), ForgePhase(w, p);
    if p.clouds.Some? { ReapCloudsKeeps(w, p.clouds.value); }
    if p.forges.Some? { ReapForgesKeeps(a, p.forges.value); }
    if p.rows.Some? { RowSweepGuarantee(b, p.rows.value); }
  }

  lemma StillJustified(a: World, c: World, m: Machine)
    requires Justified(a, m) && LiveRow(c, m.name) && c.pools == a.pools && c.now == a.now
    ensures Justified(c, m)
  {
  }

  lemma OnePassHalfSettles(w: World, p: Pass)
    requires Inv(w) && Flawless(w, p)
    ensures HalfSettled(Reap(w, p))
  {
    var a, c := CloudPhase(w, p), Reap(w, p);
    CloudPhaseJustifies(w, p);
    RowPhaseFills(w, p);
    PhaseFrames(w, p);
    forall k | k in c.machines && Ours(c.self, c.machines[k]) && k.cloud in c.clouds && LiveRow(c, c.machines[k].name)
      ensures Justified(c, c.machines[k])
    {
      StillJustified(a, c, a.machines[k]);
    }
  }

  /** A row the last sweep of the pass closed. */
  predicate ClosedLate(b: World, c: World, n: string) { LiveRow(b, n) && !LiveRow(c, n) }

  /** What the pass has already gone past when it closes row `n`: a machine or an unused registration of its name. */
  ghost predicate LeavesBehind(c: World, n: string) {
    || (exists k :: k in c.machines && Ours(c.self, c.machines[k]) && k.cloud in c.clouds && c.machines[k].name == n)
    || (exists k :: k in c.runners && k.forge in c.forges && c.runners[k].name == n && !c.runners[k].busy)
  }

  ghost predicate NothingLeftBehind(b: World, c: World) {
    forall n :: n in b.rows && ClosedLate(b, c, n) ==> !LeavesBehind(c, n)
  }

  /** One flawless pass is enough exactly when no row it closes at the end still has a machine or a registration: that
      is what the second pass is for. */
  lemma SettledExactlyWhenNothingLeft(w: World, p: Pass)
    requires Inv(w) && Flawless(w, p)
    ensures Settled(Reap(w, p)) <==> NothingLeftBehind(ForgePhase(w, p), Reap(w, p))
  {
    if Settled(Reap(w, p)) {
      SettledLeavesNothingBehind(w, p);
    }
    if NothingLeftBehind(ForgePhase(w, p), Reap(w, p)) {
      NothingLeftSettles(w, p);
    }
  }

  lemma SettledLeavesNothingBehind(w: World, p: Pass)
    requires Inv(w) && Flawless(w, p) && Settled(Reap(w, p))
    ensures NothingLeftBehind(ForgePhase(w, p), Reap(w, p))
  {
    var b, c := ForgePhase(w, p), Reap(w, p);
    ReapKeepsInv(w, p);
    PhaseFrames(w, p);
    forall n | n in b.rows && ClosedLate(b, c, n) ensures !LeavesBehind(c, n) { SettledLeavesNothing(c, n); }
  }

  lemma NothingLeftSettles(w: World, p: Pass)
    requires Inv(w) && Flawless(w, p) && NothingLeftBehind(ForgePhase(w, p), Reap(w, p))
    ensures Settled(Reap(w, p))
  {
    var b, c := ForgePhase(w, p), Reap(w, p);
    PhaseFrames(w, p);
    CloudPhaseJustifies(w, p);
    RowPhaseFills(w, p);
    NoOrphansLeft(w, p);
    NoMachineLeft(CloudPhase(w, p), b, c);
    NoRunnerLeft(b, c);
  }

  lemma SettledLeavesNothing(c: World, n: string)
    requires RowsFit(c) && Settled(c) && n in c.rows && !LiveRow(c, n)
    ensures !LeavesBehind(c, n)
  {
  }

  lemma NoMachineLeft(a: World, b: World, c: World)
    requires b == a.(runners := b.runners) && c == b.(rows := c.rows)
    requires NothingLeftBehind(b, c)
    requires forall k :: k in a.machines && Ours(a.self, a.machines[k]) && k.cloud in a.clouds ==>
               Justified(a, a.machines[k])
    ensures forall k :: k in c.machines && Ours(c.self, c.machines[k]) && k.cloud in c.clouds ==>
              Justified(c, c.machines[k])
  {
  }

  lemma NoRunnerLeft(b: World, c: World)
    requires c == b.(rows := c.rows) && RowsSwept(b.rows, c.rows, b.now)
    requires NothingLeftBehind(b, c)
    requires forall k :: k in b.runners && k.forge in b.forges ==> !Orphan(b.rows, b.runners[k])
    ensures forall k :: k in c.runners && k.forge in c.forges ==> !Orphan(c.rows, c.runners[k])
  {
  }

  /** From a half-settled world the cloud sweep removes only machines whose row is closed or missing; so it changes
      no row, and no live row loses its machine. */
  lemma SecondCloudSweep(w: World, vs: seq<CloudVisit>)
    requires Inv(w) && HalfSettled(w) && CloudPass(w, vs)
    ensures var d := ReapClouds(w, vs);
            && d.rows == w.rows
            && (forall n :: n in w.rows && w.rows[n].Live() ==> !Hollow(d, d.rows[n]))
  {
    var d := ReapClouds(w, vs);
    ReapCloudsKeeps(w, vs);
    CloudsCloseOnlyLost(w, vs);
    RemovedHaveNoLiveRow(w, vs);
    LostNothingLive(w, d);
  }

  lemma LostNothingLive(w: World, d: World)
    requires RowsFit(w) && HalfSettled(w) && d == w.(rows := d.rows, machines := d.machines)
    requires RowsSwept(w.rows, d.rows, w.now) && ClosedLostMachine(w, d)
    requires forall k :: k in w.machines && k !in d.machines ==> !LiveRow(w, w.machines[k].name)
    ensures d.rows == w.rows
    ensures forall n :: n in w.rows && w.rows[n].Live() ==> !Hollow(d, w.rows[n])
  {
  }

  lemma RemovedHaveNoLiveRow(w: World, vs: seq<CloudVisit>)
    requires Inv(w) && HalfSettled(w) && CloudPass(w, vs)
    ensures forall k :: k in w.machines && k !in ReapClouds(w, vs).machines ==> !LiveRow(w, w.machines[k].name)
  {
    ReapCloudsKeeps(w, vs);
    forall k | k in w.machines && k !in ReapClouds(w, vs).machines
      ensures !LiveRow(w, w.machines[k].name)
    {
      RemovedWereVisited(w, vs, k);
      UnjudgedIsJustified(w, w.machines[k]);
    }
  }

  /** Only machines on visited clouds are removed. */
  lemma {:induction false} RemovedWereVisited(w: World, vs: seq<CloudVisit>, k: Mid)
    requires k in w.machines && k !in ReapClouds(w, vs).machines
    ensures k.cloud in CloudIds(vs)
  {
    var last, before := vs[|vs| - 1], vs[..|vs| - 1];
    if k !in ReapClouds(w, before).machines {
      RemovedWereVisited(w, before, k);
      var i :| 0 <= i < |before| && CloudIds(before)[i] == k.cloud;
      assert CloudIds(vs)[i] == k.cloud;
    } else {
      var u := ReapClouds(w, before);
      ListingStaysOnCloud(u, last.cloud, Listing(u, last.cloud), last.machines, k);
      assert CloudIds(vs)[|vs| - 1] == k.cloud;
    }
  }

  lemma {:induction false} ListingStaysOnCloud(w: World, cloud: nat, listing: map<string, Machine>,
                                               vs: seq<MachineVisit>, k: Mid)
    requires k in w.machines && k !in ReapListing(w, cloud, listing, vs).machines
    ensures k.cloud == cloud
  {
    if k !in ReapListing(w, cloud, listing, vs[..|vs| - 1]).machines {
      ListingStaysOnCloud(w, cloud, listing, vs[..|vs| - 1], k);
    }
  }

  /** With the clock and everything outside standing still, two flawless passes leave nothing for the reaper. */
  lemma TwoPassesSettle(w: World, p: Pass, q: Pass)
    requires Inv(w) && Flawless(w, p) && Flawless(Reap(w, p), q)
    ensures Settled(Reap(Reap(w, p), q))
  {
    ReapKeepsInv(w, p);
    OnePassHalfSettles(w, p);
    SecondPassSettles(Reap(w, p), q);
  }

  lemma SecondPassSettles(c: World, q: Pass)
    requires Inv(c) && HalfSettled(c) && Flawless(c, q)
    ensures Settled(Reap(c, q))
  {
    var d, e, f := CloudPhase(c, q), ForgePhase(c, q), Reap(c, q);
    SecondCloudSweep(c, q.clouds.value);
    CloudPhaseJustifies(c, q);
    PhaseFrames(c, q);
    RowSweepGuarantee(e, q.rows.value);
    NoHollowNoChange(d, e, f);
    NoOrphansLeft(c, q);
    forall k | k in f.machines && Ours(f.self, f.machines[k]) && k.cloud in f.clouds
      ensures Justified(f, f.machines[k])
    {
      StillJustified(d, f, d.machines[k]);
    }
  }

  lemma NoHollowNoChange(d: World, e: World, f: World)
    requires e == d.(runners := e.runners) && OnlyHollow(e, f)
    requires forall n :: n in d.rows && d.rows[n].Live() ==> !Hollow(d, d.rows[n])
    ensures f.rows == d.rows
    ensures forall n :: n in f.rows && f.rows[n].Live() ==> !Hollow(f, f.rows[n])
  {
  }

  lemma NoOrphansLeft(c: World, q: Pass)
    requires Inv(c) && Flawless(c, q)
    ensures var e := ForgePhase(c, q);
            forall k :: k in e.runners && k.forge in c.forges ==> !Orphan(e.rows, e.runners[k])
  {
    var d, e := CloudPhase(c, q), ForgePhase(c, q);
    PhaseFrames(c, q);
    ForgeSweepGuarantee(d, q.forges.value);
    forall k | k in e.runners && k.forge in c.forges ensures !Orphan(e.rows, e.runners[k]) {
      var v := VisitOfForge(q.forges.value, d.forges.Keys, k.forge);
    }
  }

  /** A settled world is a fixed point: any further pass, even one in which calls fail, changes nothing. */
  lemma SettledIsFixed(w: World, p: Pass)
    requires Inv(w) && Settled(w) && Whole(w, p)
    ensures Reap(w, p) == w
  {
    if p.clouds.Some? { SettledCloudsFixed(w, p.clouds.value); }
    if p.forges.Some? { SettledForgesFixed(w, p.forges.value); }
    if p.rows.Some? {
      RowSweepGuarantee(w, p.rows.value);
      assert ReapRows(w, p.rows.value).rows == w.rows;
    }
  }

  lemma SettledCloudsFixed(w: World, vs: seq<CloudVisit>)
    requires Inv(w) && Settled(w) && CloudPass(w, vs)
    ensures ReapClouds(w, vs) == w
  {
    ReapCloudsKeeps(w, vs);
    CloudsCloseOnlyLost(w, vs);
    forall k | k in w.machines ensures k in ReapClouds(w, vs).machines {
      if k !in ReapClouds(w, vs).machines { RemovedWereSettled(w, vs, k); }
    }
    NothingLostNothingClosed(w, ReapClouds(w, vs));
  }

  lemma NothingLostNothingClosed(w: World, w': World)
    requires Swept(w, w') && w'.runners == w.runners && ClosedLostMachine(w, w') && w.machines.Keys <= w'.machines.Keys
    ensures w' == w
  {
  }

  lemma RemovedWereSettled(w: World, vs: seq<CloudVisit>, k: Mid)
    requires Inv(w) && CloudPass(w, vs) && k in w.machines && k !in ReapClouds(w, vs).machines
    ensures k.cloud in w.clouds && Ours(w.self, w.machines[k]) && !Justified(w, w.machines[k])
  {
    ReapCloudsKeeps(w, vs);
    RemovedWereVisited(w, vs, k);
    UnjudgedIsJustified(w, w.machines[k]);
  }

  lemma SettledForgesFixed(w: World, vs: seq<ForgeVisit>)
    requires Settled(w) && ForgePass(w, vs)
    ensures ReapForges(w, vs) == w
  {
    var w' := ReapForges(w, vs);
    ReapForgesKeeps(w, vs);
    forall k | k in w.runners ensures k in w'.runners {
      if k !in w'.runners { RemovedRunnersWereVisited(w, vs, k); }
    }
    assert w'.runners == w.runners;
  }

  lemma {:induction false} RemovedRunnersWereVisited(w: World, vs: seq<ForgeVisit>, k: Rid)
    requires k in w.runners && k !in ReapForges(w, vs).runners
    ensures k.forge in ForgeIds(vs)
  {
    var last, before := vs[|vs| - 1], vs[..|vs| - 1];
    if k !in ReapForges(w, before).runners {
      RemovedRunnersWereVisited(w, before, k);
      var i :| 0 <= i < |before| && ForgeIds(before)[i] == k.forge;
      assert ForgeIds(vs)[i] == k.forge;
    } else {
      var u := ReapForges(w, before);
      RegistrationsStayOnForge(u, last.forge, Lifecycle.Registrations(u, last.forge), last.runners, k);
      assert ForgeIds(vs)[|vs| - 1] == k.forge;
    }
  }

  lemma {:induction false} RegistrationsStayOnForge(w: World, forge: nat, listing: map<string, Runner>,
                                                    vs: seq<RunnerVisit>, k: Rid)
    requires k in w.runners && k !in ReapRegistrations(w, forge, listing, vs).runners
    ensures k.forge == forge
  {
    if k !in ReapRegistrations(w, forge, listing, vs[..|vs| - 1]).runners {
      RegistrationsStayOnForge(w, forge, listing, vs[..|vs| - 1], k);
    }
  }

  /** Two flawless passes reach a state that a third pass leaves unchanged. */
  lemma ThirdPassChangesNothing(w: World, p: Pass, q: Pass, r: Pass)
    requires Inv(w) && Flawless(w, p) && Flawless(Reap(w, p), q) && Whole(Reap(Reap(w, p), q), r)
    ensures Reap(Reap(Reap(w, p), q), r) == Reap(Reap(w, p), q)
  {
    TwoPassesSettle(w, p, q);
    ReapKeepsInv(w, p);
    ReapKeepsInv(Reap(w, p), q);
    SettledIsFixed(Reap(Reap(w, p), q), r);
  }
}
