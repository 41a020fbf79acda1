/** The row written ahead protects a launch under way: no sweep of the reaper that falls between two of its effects
    takes its machine, its registration or its row (internal/controller/controller.go, internal/controller/reap.go). */
module WriteAhead {
  import opened Worlds
  import opened Reaper
  import opened Launches
  import opened ReapPasses
  import Lifecycle

  /** The launch began no longer ago than the reaper's grace period and the pool's lifetime. */
  predicate Young(w: World, l: Launch) {
    w.now - l.row.createdAt <= GRACE && !Lifecycle.Expired(l.pool, l.row, w.now)
  }

  /** The machine the stored row names, if it names one, has not vanished by itself. */
  predicate MachineStands(w: World, l: Launch)
    requires l.name in w.rows
  {
    w.rows[l.name].providerId != "" ==> Mid(l.pool.cloudId, w.rows[l.name].providerId) in w.machines
  }

  ghost predicate Protected(w: World, l: Launch) {
    Inv(w) && InFlight(w, l) && Synced(w.rows[l.name], l) && Young(w, l) && MachineStands(w, l)
  }

  /** The launch's row, machine and registration are as they were. */
  ghost predicate Spared(w: World, w': World, l: Launch) {
    && l.name in w.rows && l.name in w'.rows && w'.rows[l.name] == w.rows[l.name]
    && (forall k :: k in w.machines && Ours(w.self, w.machines[k]) && w.machines[k].name == l.name ==> k in w'.machines)
    && (forall k :: k in w.runners && w.runners[k].name == l.name ==> k in w'.runners)
  }

  lemma LaunchedMachineIsJustified(w: World, l: Launch, k: Mid)
    requires Protected(w, l) && k in w.machines && Ours(w.self, w.machines[k]) && w.machines[k].name == l.name
    ensures !Unjustified(w, k)
  {
  }

  lemma CloudSweepSpares(w: World, l: Launch, vs: seq<CloudVisit>)
    requires Protected(w, l)
    ensures Spared(w, ReapClouds(w, vs), l)
  {
    var w' := ReapClouds(w, vs);
    ReapCloudsKeeps(w, vs);
    CloudsCloseOnlyLost(w, vs);
    forall k | k in w.machines && Ours(w.self, w.machines[k]) && w.machines[k].name == l.name
      ensures k in w'.machines
    {
      LaunchedMachineIsJustified(w, l, k);
    }
    assert l.name !in GoneNames(w, w') by {
      forall k | k in w.machines && k !in w'.machines ensures w.machines[k].name != l.name {
        assert Unjustified(w, k);
      }
    }
  }

  lemma ForgeSweepSpares(w: World, l: Launch, vs: seq<ForgeVisit>)
    requires Protected(w, l)
    ensures Spared(w, ReapForges(w, vs), l)
  {
    ReapForgesKeeps(w, vs);
  }

  lemma RowSweepSpares(w: World, l: Launch, vs: seq<RowVisit>)
    requires Protected(w, l)
    ensures Spared(w, ReapRows(w, vs), l)
  {
    RowSweepGuarantee(w, vs);
  }

  /** A sweep, even one that comes too late, leaves the launch in flight. */
  lemma SweptKeepsFlight(w: World, w': World, l: Launch)
    requires InFlight(w, l) && Swept(w, w')
    ensures InFlight(w', l)
  {
  }

  lemma SparedStaysProtected(w: World, w': World, l: Launch)
    requires Protected(w, l) && Swept(w, w') && Spared(w, w', l) && Inv(w')
    ensures Protected(w', l)
  {
    SweptKeepsFlight(w, w', l);
    var r := w.rows[l.name];
    if r.providerId != "" {
      assert Fits(w, l.name, l.row);
    }
  }

  lemma CloudPhaseSpares(w: World, l: Launch, p: Pass)
    requires Protected(w, l)
    ensures var a := CloudPhase(w, p); Spared(w, a, l) && Protected(a, l) && Swept(w, a)
  {
    if p.clouds.Some? {
      CloudSweepSpares(w, l, p.clouds.value);
      ReapCloudsKeeps(w, p.clouds.value);
      CloudSweepKeepsInv(w, p.clouds.value);
      SparedStaysProtected(w, CloudPhase(w, p), l);
    }
  }

  lemma ForgePhaseSpares(w: World, l: Launch, p: Pass)
    requires Protected(CloudPhase(w, p), l)
    ensures var a, b := CloudPhase(w, p), ForgePhase(w, p); Spared(a, b, l) && Protected(b, l) && Swept(a, b)
  {
    if p.forges.Some? {
      var a := CloudPhase(w, p);
      ForgeSweepSpares(a, l, p.forges.value);
      ReapForgesKeeps(a, p.forges.value);
      ForgeSweepKeepsInv(a, p.forges.value);
      SparedStaysProtected(a, ForgePhase(w, p), l);
    }
  }

  lemma RowPhaseSpares(w: World, l: Launch, p: Pass)
    requires Protected(ForgePhase(w, p), l)
    ensures var b, c := ForgePhase(w, p), Reap(w, p); Spared(b, c, l) && Protected(c, l) && Swept(b, c)
  {
    if p.rows.Some? {
      var b := ForgePhase(w, p);
      RowSweepSpares(b, l, p.rows.value);
      RowSweepGuarantee(b, p.rows.value);
      RowSweepKeepsInv(b, p.rows.value);
      SparedStaysProtected(b, Reap(w, p), l);
    }
  }

  lemma SparedTransitive(a: World, b: World, c: World, l: Launch)
    requires Spared(a, b, l) && Spared(b, c, l) && Swept(a, b)
    ensures Spared(a, c, l)
  {
  }

  /** A whole pass of the reaper between any two effects of a launch spares it, and so does the next one. */
  lemma ReapSparesLaunch(w: World, l: Launch, p: Pass)
    requires Protected(w, l)
    ensures Spared(w, Reap(w, p), l) && Protected(Reap(w, p), l)
  {
    CloudPhaseSpares(w, l, p);
    ForgePhaseSpares(w, l, p);
    RowPhaseSpares(w, l, p);
    SparedTransitive(w, CloudPhase(w, p), ForgePhase(w, p), l);
    SweptTransitive(w, CloudPhase(w, p), ForgePhase(w, p));
    SparedTransitive(w, ForgePhase(w, p), Reap(w, p), l);
  }

  // ---- a sweep that comes too late ----

  /** While a launch waits for its machine, a sweep whose save works closes its row exactly when the grace period is
      over. */
  lemma WaitingRowClosedExactlyAfterGrace(w: World, l: Launch, v: RowVisit)
    requires InFlight(w, l) && LiveRow(w, l.name) && w.rows[l.name].providerId == ""
    requires v.name == l.name && v.close.Applied()
    ensures LiveRow(ReapRow(w, v), l.name) <==> w.now - w.rows[l.name].createdAt <= 600_000_000_000
  {
  }

  /** A launch whose row a sweep has closed opens it again exactly when its next step saves: SetState writes the whole
      row from the launch's copy. So Deleted is final only as long as no sweep overtakes a launch. */
  lemma LaunchReopensItsRow(w: World, l: Launch, e: LaunchEnv)
    requires InFlight(w, l) && !LiveRow(w, l.name)
    ensures var w', save := Effect(w, l, e), SaveMade(l, e);
            && (LiveRow(w', l.name) <==> save.Some? && save.value.Applied())
            && (LiveRow(w', l.name) ==> w'.rows[l.name].destroyedAt == l.row.destroyedAt)
  {
  }
}
