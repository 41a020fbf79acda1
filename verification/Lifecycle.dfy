/** What happens to one machine of a pool in a reconcile pass (internal/controller/lifecycle.go), as functions of
    its row, of what its cloud and forge hold, and of what the outside answered. */
module Lifecycle {
  import opened Types
  import opened Instances
  import opened Worlds

  // ---- the runner snapshot ----

  /** One reading of a forge's registrations, by id. A failed reading is not an empty one. */
  datatype Snapshot = Untrusted | Listed(runners: map<string, Runner>)
  {
    predicate Has(id: string) { Listed? && id in runners }
    predicate Lacks(id: string) { Listed? && id !in runners }
  }

  function Registrations(w: World, forge: nat): map<string, Runner> {
    map k | k in w.runners && k.forge == forge :: k.id := w.runners[k]
  }

  /** Takes note of the rows of a pool whose registration a reading of its forge contains. */
  function Witness(w: World, poolId: nat, snap: Snapshot): World
    requires poolId in w.pools
  {
    var forge := w.pools[poolId].forgeId;
    var seen := set n | n in LiveNames(w, poolId) && snap.Has(w.rows[n].runnerId) ::
      Sighting(n, Rid(forge, w.rows[n].runnerId));
    w.(past := w.past.(seen := w.past.seen + seen))
  }

  // ---- what an operation on one machine comes to ----

  /** The row as stored afterwards, and whether the machine its provider id names and its registration were
      removed. */
  datatype Fate = Fate(row: Row, machineGone: bool, runnerGone: bool)

  function Apply(w: World, pool: Pool, name: string, f: Fate): World
    requires name in w.rows
  {
    var r := w.rows[name];
    w.(rows := w.rows[name := f.row],
       machines := if f.machineGone then w.machines - {Mid(pool.cloudId, r.providerId)} else w.machines,
       runners := if f.runnerGone then w.runners - {Rid(pool.forgeId, r.runnerId)} else w.runners)
  }

  /** A fate that keeps the invariant: the row stays the same machine's, only a row that names a machine or a
      registration can lose it, and a row is closed only once the machine it names is gone. */
  predicate Sound(r: Row, f: Fate) {
    && f.row.poolId == r.poolId && f.row.providerId == r.providerId && f.row.runnerId == r.runnerId
    && (f.machineGone ==> r.providerId != "")
    && (f.runnerGone ==> r.runnerId != "")
    && (f.row.Live() || r.providerId == "" || f.machineGone)
  }

  // ---- destroy ----

  /** Answers during one destroy: the save of Draining, the machine's deletion, the registration's removal and
      the save that closes the row. */
  datatype DestroyEnv = DestroyEnv(drain: Reply, delete: Reply, deprovision: Reply, close: Reply)

  predicate NeedsDrain(inst: Row) { inst.state != Draining && inst.state != Deleted }

  function Drained(inst: Row, now: int): Row {
    if NeedsDrain(inst) then Stamp(inst, Draining, now) else inst
  }

  predicate DrainFails(inst: Row, e: DestroyEnv) { NeedsDrain(inst) && !e.drain.Ok? }

  predicate DeleteFails(inst: Row, e: DestroyEnv) { inst.providerId != "" && !e.delete.Ok? }

  /** destroy returns no error. */
  predicate DestroySucceeds(inst: Row, e: DestroyEnv) {
    !DrainFails(inst, e) && !DeleteFails(inst, e) && e.close.Ok?
  }

  /** destroy: drain, delete the machine, remove its registration when the forge is reachable, settle, close; it
      stops at a failing drain or delete. `stored` is the row as it stands, `inst` the caller's copy of it. */
  function Destroy(stored: Row, inst: Row, hasForge: bool, now: int, e: DestroyEnv): Fate {
    var drained := if NeedsDrain(inst) && e.drain.Applied() then Drained(inst, now) else stored;
    if DrainFails(inst, e) then Fate(drained, false, false)
    else
      var machineGone := inst.providerId != "" && e.delete.Applied();
      if DeleteFails(inst, e) then Fate(drained, machineGone, false)
      else
        Fate(if e.close.Applied() then Closed(Drained(inst, now), now) else drained,
             machineGone,
             hasForge && inst.runnerId != "" && e.deprovision.Applied())
  }

  /** A caller's copy of a live row: what is stored, apart from a first sighting of the machine up. */
  predicate CopyOf(stored: Row, inst: Row, now: int) {
    && stored.Live()
    && inst == stored.(activeAt := inst.activeAt)
    && KeepsFirst(stored.activeAt, inst.activeAt, now)
  }

  /** When destroy reports success the machine is gone and the row is closed; when the delete failed the row is
      still live, so that a later pass tries again. A registration that will not go does not hold the row open. */
  lemma DestroyOutcome(stored: Row, inst: Row, hasForge: bool, now: int, e: DestroyEnv)
    requires CopyOf(stored, inst, now)
    ensures var f := Destroy(stored, inst, hasForge, now, e);
            && Sound(stored, f)
            && (DestroySucceeds(inst, e) ==> f.row.state == Deleted && (inst.providerId != "" ==> f.machineGone))
            && (DeleteFails(inst, e) ==> f.row.Live())
            && (!hasForge ==> !f.runnerGone)
            && (DestroySucceeds(inst, e) && hasForge && inst.runnerId != "" && e.deprovision.Applied() ==> f.runnerGone)
  {
  }

  lemma ClosedEvolves(r: Row, now: int)
    requires RowOk(r, now) && r.Live()
    ensures Evolves(r, Closed(r, now), now) && RowOk(Closed(r, now), now)
  {
  }

  lemma DrainedEvolves(stored: Row, inst: Row, now: int)
    requires CopyOf(stored, inst, now) && RowOk(stored, now)
    ensures Evolves(stored, Drained(inst, now), now) && RowOk(Drained(inst, now), now)
  {
  }

  lemma DestroyEvolves(stored: Row, inst: Row, hasForge: bool, now: int, e: DestroyEnv)
    requires CopyOf(stored, inst, now) && RowOk(stored, now)
    ensures var r := Destroy(stored, inst, hasForge, now, e).row; Evolves(stored, r, now) && RowOk(r, now)
  {
    var d := Drained(inst, now);
    DrainedEvolves(stored, inst, now);
    ClosedEvolves(d, now);
    EvolvesTransitive(stored, d, Closed(d, now), now);
    EvolvesReflexive(stored, now);
    assert Destroy(stored, inst, hasForge, now, e).row in {stored, d, Closed(d, now)};
  }

  // ---- advance ----

  /** Answers during one advance: whether the provider's Get worked, the save of captured output (None when the
      provider has no output to give), the plain save of the row or of a new state, and the destroy. */
  datatype AdvanceEnv = AdvanceEnv(got: bool, logs: Option<Reply>, save: Reply, destroy: DestroyEnv)

  predicate Expired(pool: Pool, r: Row, now: int) { now - r.createdAt > pool.MaxLifetime() }

  /** The copy after Get: billing starts when the provider first reports the machine running. */
  function Sighted(inst: Row, m: Machine, now: int): Row {
    if inst.activeAt.None? && m.state == Running then inst.(activeAt := Some(now)) else inst
  }

  function Saved(stored: Row, r: Row, reply: Reply): Fate {
    Fate(if reply.Applied() then r else stored, false, false)
  }

  /** The stored row after the provider's output was captured and saved, when there was any. */
  function AfterCapture(stored: Row, inst: Row, e: AdvanceEnv): Row {
    if e.logs.Some? && e.logs.value.Applied() then inst else stored
  }

  /** advance: one step for one machine. `m` is the machine the row's provider id names, if it exists. */
  function Advance(r: Row, pool: Pool, m: Option<Machine>, snap: Snapshot, now: int, e: AdvanceEnv): Fate {
    if Expired(pool, r, now) then Destroy(r, r, true, now, e.destroy)
    else if r.providerId == "" then
      if r.state == Failed then Destroy(r, r, true, now, e.destroy) else Fate(r, false, false)
    else if !e.got then Fate(r, false, false)
    else if m.None? then Destroy(r, r, true, now, e.destroy)
    else AdvanceUp(r, m.value, snap, now, e)
  }

  /** The rest of advance: the provider knows the machine. */
  function AdvanceUp(r: Row, m: Machine, snap: Snapshot, now: int, e: AdvanceEnv): Fate {
    var up := Sighted(r, m, now);
    match m.state
    case Errored => Destroy(AfterCapture(r, up, e), up, true, now, e.destroy)
    case Stopped => Destroy(AfterCapture(r, up, e), up, true, now, e.destroy)
    case Running => AdvanceRunning(r, up, snap, now, e)
    case Creating => AdvanceRunning(r, up, snap, now, e)
    case Gone => Destroy(r, up, true, now, e.destroy)
  }

  /** advanceRunning: what the forge's view of a machine that is up means for it. */
  function AdvanceRunning(stored: Row, inst: Row, snap: Snapshot, now: int, e: AdvanceEnv): Fate {
    if inst.runnerId == "" || snap.Untrusted? then Saved(stored, inst, e.save)
    else if inst.runnerId !in snap.runners then
      if inst.readyAt.None? && inst.claimedAt.None? then Saved(stored, inst, e.save)
      else Destroy(stored, inst, true, now, e.destroy)
    else
      var runner := snap.runners[inst.runnerId];
      if runner.busy && inst.state != Busy then Saved(stored, Stamp(inst, Busy, now), e.save)
      else if !runner.busy && inst.state == Booting && runner.online then Saved(stored, Stamp(inst, Idle, now), e.save)
      else Saved(stored, inst, e.save)
  }

  /** What destroy does, call by call. The machine is deleted only once the row says Draining, and its registration goes
      and the row is closed only once the machine is gone. */
  lemma DestroyExactly(stored: Row, inst: Row, hasForge: bool, now: int, e: DestroyEnv)
    requires CopyOf(stored, inst, now)
    ensures var f := Destroy(stored, inst, hasForge, now, e);
            var draining := stored.state == Draining || e.drain.Ok?;
            var deleted := stored.providerId == "" || e.delete.Ok?;
            && (f.machineGone <==> stored.providerId != "" && draining && e.delete.Applied())
            && (f.runnerGone <==> hasForge && stored.runnerId != "" && draining && deleted && e.deprovision.Applied())
            && (f.row.state == Deleted <==> draining && deleted && e.close.Applied())
            && (f.row.state != Deleted ==>
                  f.row.state == if stored.state == Draining || e.drain.Applied() then Draining else stored.state)
            && (f.row.state == Deleted ==>
                  f.row.destroyedAt == Some(if stored.destroyedAt.Some? then stored.destroyedAt.value else now))
            && (stored.state != Draining && f.row.state in {Draining, Deleted} ==>
                  f.row.finishedAt == Some(if stored.finishedAt.Some? then stored.finishedAt.value else now))
  {
  }

  /** What the forge's view gives up: a machine once seen whose registration is gone. */
  lemma GivenUpExactlyWhen(r: Row, inst: Row, snap: Snapshot, now: int, e: AdvanceEnv)
    requires CopyOf(r, inst, now) && e.destroy == DestroyEnv(Ok, Ok, Ok, Ok)
    ensures var f := AdvanceRunning(r, inst, snap, now, e);
            && (f.row.state == Deleted <==>
                r.runnerId != "" && snap.Listed? && r.runnerId !in snap.runners
                    && (r.readyAt.Some? || r.claimedAt.Some?))
            && WhollyGone(r, f)
  {
    DestroyExactly(r, inst, true, now, e.destroy);
  }

  /** A row that is closed leaves no machine and no registration, one that is not loses neither. */
  predicate WhollyGone(r: Row, f: Fate) {
    && (f.machineGone <==> f.row.state == Deleted && r.providerId != "")
    && (f.runnerGone <==> f.row.state == Deleted && r.runnerId != "")
  }

  lemma UpClosedExactlyWhen(r: Row, m: Machine, snap: Snapshot, now: int, e: AdvanceEnv)
    requires r.Live() && e.destroy == DestroyEnv(Ok, Ok, Ok, Ok)
    ensures var f := AdvanceUp(r, m, snap, now, e);
            && (f.row.state == Deleted <==>
                || m.state in {Errored, Stopped, Gone}
                || (r.runnerId != "" && snap.Listed? && r.runnerId !in snap.runners
                    && (r.readyAt.Some? || r.claimedAt.Some?)))
            && WhollyGone(r, f)
  {
    var up := Sighted(r, m, now);
    GivenUpExactlyWhen(r, up, snap, now, e);
    DestroyExactly(r, up, true, now, e.destroy);
    DestroyExactly(AfterCapture(r, up, e), up, true, now, e.destroy);
  }

  /** With every call working, a row is closed exactly when its machine is too old, was never made and cannot be any
      more, is gone or down at the provider, or has finished its job at the forge; and then nothing of it is left. */
  lemma ClosedExactlyWhen(r: Row, pool: Pool, m: Option<Machine>, snap: Snapshot, now: int, e: AdvanceEnv)
    requires r.Live() && e.got && e.destroy == DestroyEnv(Ok, Ok, Ok, Ok)
    ensures var f := Advance(r, pool, m, snap, now, e);
            && (f.row.state == Deleted <==>
                || now - r.createdAt > pool.maxLifetimeSec * 1_000_000_000
                || (r.providerId == "" && r.state == Failed)
                || (r.providerId != "" && (m.None? || m.value.state in {Errored, Stopped, Gone}))
                || (r.providerId != "" && r.runnerId != "" && snap.Listed? && r.runnerId !in snap.runners
                    && (r.readyAt.Some? || r.claimedAt.Some?)))
            && (f.machineGone <==> f.row.state == Deleted && r.providerId != "")
            && (f.runnerGone <==> f.row.state == Deleted && r.runnerId != "")
  {
    DestroyExactly(r, r, true, now, e.destroy);
    if m.Some? { UpClosedExactlyWhen(r, m.value, snap, now, e); }
  }

  /** A machine that is up, within its lifetime and not given up: it becomes Busy exactly when the forge has its runner
      at work and Idle exactly when it was booting and its runner is online and free; then the stamp of that state is
      set unless it was. Billing starts at the first Running. Nothing else changes, and in all other cases not the
      state; and nothing at all when the save has no effect. */
  lemma UpOutcome(r: Row, pool: Pool, m: Machine, snap: Snapshot, now: int, e: AdvanceEnv)
    requires r.Live() && now - r.createdAt <= pool.maxLifetimeSec * 1_000_000_000 && r.providerId != ""
    requires m.state in {Running, Creating} && e.got
    requires r.runnerId != "" && snap.Listed? && r.runnerId !in snap.runners ==> r.readyAt.None? && r.claimedAt.None?
    ensures var r' := Advance(r, pool, Some(m), snap, now, e).row;
            var known := r.runnerId != "" && snap.Listed? && r.runnerId in snap.runners;
            var working := known && snap.runners[r.runnerId].busy;
            var ready := known && !working && r.state == Booting && snap.runners[r.runnerId].online;
            if !e.save.Applied() then r' == r
            else
              && (working ==> r'.state == Busy) && (ready ==> r'.state == Idle)
              && (!working && !ready ==> r'.state == r.state)
              && r'.claimedAt == (if working && r.state != Busy && r.claimedAt.None? then Some(now) else r.claimedAt)
              && r'.readyAt == (if ready && r.readyAt.None? then Some(now) else r.readyAt)
              && r'.activeAt == (if m.state == Running && r.activeAt.None? then Some(now) else r.activeAt)
              && r' == r.(state := r'.state, claimedAt := r'.claimedAt, readyAt := r'.readyAt, activeAt := r'.activeAt)
  {
  }

  /** Within its lifetime a row is left as it is while its machine is still to come, and while the provider does not
      answer. */
  lemma LeftAlone(r: Row, pool: Pool, m: Option<Machine>, snap: Snapshot, now: int, e: AdvanceEnv)
    requires r.Live() && now - r.createdAt <= pool.maxLifetimeSec * 1_000_000_000
    requires if r.providerId == "" then r.state != Failed else !e.got
    ensures Advance(r, pool, m, snap, now, e) == Fate(r, false, false)
  {
  }

  lemma AdvanceIsSound(r: Row, pool: Pool, m: Option<Machine>, snap: Snapshot, now: int, e: AdvanceEnv)
    requires r.Live()
    ensures Sound(r, Advance(r, pool, m, snap, now, e))
  {
    DestroyOutcome(r, r, true, now, e.destroy);
    if m.Some? { AdvanceUpIsSound(r, m.value, snap, now, e); }
  }

  lemma AdvanceUpIsSound(r: Row, m: Machine, snap: Snapshot, now: int, e: AdvanceEnv)
    requires r.Live()
    ensures Sound(r, AdvanceUp(r, m, snap, now, e))
  {
    var up := Sighted(r, m, now);
    DestroyOutcome(r, up, true, now, e.destroy);
    DestroyOutcome(AfterCapture(r, up, e), up, true, now, e.destroy);
    RunningIsSound(r, up, snap, now, e);
  }

  lemma RunningIsSound(r: Row, inst: Row, snap: Snapshot, now: int, e: AdvanceEnv)
    requires CopyOf(r, inst, now)
    ensures Sound(r, AdvanceRunning(r, inst, snap, now, e))
  {
    DestroyOutcome(r, inst, true, now, e.destroy);
  }

  lemma RunningEvolves(r: Row, inst: Row, snap: Snapshot, now: int, e: AdvanceEnv)
    requires CopyOf(r, inst, now) && RowOk(r, now)
    ensures var r' := AdvanceRunning(r, inst, snap, now, e).row; Evolves(r, r', now) && RowOk(r', now)
  {
    DestroyEvolves(r, inst, true, now, e.destroy);
    EvolvesReflexive(r, now);
    CopyEvolves(r, inst, now);
    BusyEvolves(r, inst, now);
    if inst.state == Booting { IdleEvolves(r, inst, now); }
    assert AdvanceRunning(r, inst, snap, now, e).row in
      {r, inst, Stamp(inst, Busy, now), Stamp(inst, Idle, now), Destroy(r, inst, true, now, e.destroy).row};
  }

  lemma CopyEvolves(r: Row, inst: Row, now: int)
    requires CopyOf(r, inst, now) && RowOk(r, now)
    ensures Evolves(r, inst, now) && RowOk(inst, now)
  {
  }

  lemma BusyEvolves(r: Row, inst: Row, now: int)
    requires CopyOf(r, inst, now) && RowOk(r, now)
    ensures Evolves(r, Stamp(inst, Busy, now), now) && RowOk(Stamp(inst, Busy, now), now)
  {
  }

  lemma IdleEvolves(r: Row, inst: Row, now: int)
    requires CopyOf(r, inst, now) && RowOk(r, now) && inst.state == Booting
    ensures Evolves(r, Stamp(inst, Idle, now), now) && RowOk(Stamp(inst, Idle, now), now)
  {
  }

  lemma AdvanceEvolves(r: Row, pool: Pool, m: Option<Machine>, snap: Snapshot, now: int, e: AdvanceEnv)
    requires r.Live() && RowOk(r, now)
    ensures var r' := Advance(r, pool, m, snap, now, e).row; Evolves(r, r', now) && RowOk(r', now)
  {
    DestroyEvolves(r, r, true, now, e.destroy);
    EvolvesReflexive(r, now);
    if m.Some? {
      var up := Sighted(r, m.value, now);
      assert CopyOf(r, up, now);
      DestroyEvolves(r, up, true, now, e.destroy);
      RunningEvolves(r, up, snap, now, e);
      CapturedThenDestroyed(r, up, now, e);
    }
  }

  lemma CapturedThenDestroyed(r: Row, up: Row, now: int, e: AdvanceEnv)
    requires CopyOf(r, up, now) && RowOk(r, now)
    ensures var r' := Destroy(AfterCapture(r, up, e), up, true, now, e.destroy).row;
            Evolves(r, r', now) && RowOk(r', now)
  {
    var captured := AfterCapture(r, up, e);
    assert Evolves(r, captured, now) && RowOk(captured, now) && CopyOf(captured, up, now);
    DestroyEvolves(captured, up, true, now, e.destroy);
    EvolvesTransitive(r, captured, Destroy(captured, up, true, now, e.destroy).row, now);
  }

  /** A machine the provider reports up, within its lifetime, is torn down on one kind of evidence only: this
      pass's reading of the forge worked and lacks the registration, and the row carries the mark of an earlier
      reading that had it. */
  lemma TeardownNeedsEvidence(r: Row, pool: Pool, m: Option<Machine>, snap: Snapshot, now: int, e: AdvanceEnv)
    requires r.Live() && !Expired(pool, r, now) && r.providerId != ""
    requires m.Some? && (m.value.state == Running || m.value.state == Creating)
    requires var f := Advance(r, pool, m, snap, now, e);
             f.machineGone || f.runnerGone || f.row.state == Deleted || (f.row.state == Draining && r.state != Draining)
    ensures e.got && r.runnerId != "" && snap.Lacks(r.runnerId) && (r.readyAt.Some? || r.claimedAt.Some?)
  {
  }

  /** With every call working the evidence is also enough: a machine that is up and within its lifetime goes exactly
      when the reading lacks its registration and the row carries a mark. */
  lemma TeardownExactlyWhen(r: Row, pool: Pool, m: Option<Machine>, snap: Snapshot, now: int, e: AdvanceEnv)
    requires r.Live() && !Expired(pool, r, now) && r.providerId != ""
    requires m.Some? && (m.value.state == Running || m.value.state == Creating)
    requires e.got && e.destroy == DestroyEnv(Ok, Ok, Ok, Ok)
    ensures Advance(r, pool, m, snap, now, e).machineGone <==>
              r.runnerId != "" && snap.Lacks(r.runnerId) && (r.readyAt.Some? || r.claimedAt.Some?)
  {
  }

  /** The marks of having been ready or busy appear only on evidence of this pass's reading. */
  lemma MarksNeedEvidence(r: Row, pool: Pool, m: Option<Machine>, snap: Snapshot, now: int, e: AdvanceEnv)
    requires r.Live()
    ensures var r' := Advance(r, pool, m, snap, now, e).row;
            (r'.readyAt.Some? && r.readyAt.None?) || (r'.claimedAt.Some? && r.claimedAt.None?) ==>
              r.runnerId != "" && snap.Has(r.runnerId)
  {
    DestroyKeepsMarks(r, r, true, now, e.destroy);
    if m.Some? {
      var up := Sighted(r, m.value, now);
      DestroyKeepsMarks(r, up, true, now, e.destroy);
      DestroyKeepsMarks(AfterCapture(r, up, e), up, true, now, e.destroy);
    }
  }

  lemma DestroyKeepsMarks(stored: Row, inst: Row, hasForge: bool, now: int, e: DestroyEnv)
    requires CopyOf(stored, inst, now)
    ensures var r := Destroy(stored, inst, hasForge, now, e).row;
            r.readyAt == stored.readyAt && r.claimedAt == stored.claimedAt
  {
  }

  // ---- moving back ----

  /** The place of a state in the line the states are meant to form; Failed owes a destroy, so it comes before
      Draining. */
  function Place(s: State): nat {
    match s
    case Pending => 0
    case Provisioning => 1
    case Booting => 2
    case Idle => 3
    case Busy => 4
    case Failed => 5
    case Draining => 6
    case Deleted => 7
  }

  /** The machine is up and within its lifetime, this pass's reading shows its runner at work, and the save of that
      has an effect. */
  predicate FoundBusy(r: Row, pool: Pool, m: Option<Machine>, snap: Snapshot, now: int, e: AdvanceEnv) {
    && !Expired(pool, r, now)
    && r.providerId != "" && e.got && m.Some? && (m.value.state == Running || m.value.state == Creating)
    && r.runnerId != "" && snap.Has(r.runnerId) && snap.runners[r.runnerId].busy
    && e.save.Applied()
  }

  /** A destroy never moves a row back. */
  lemma DestroyMovesOn(stored: Row, inst: Row, hasForge: bool, now: int, e: DestroyEnv)
    requires CopyOf(stored, inst, now)
    ensures var r := Destroy(stored, inst, hasForge, now, e).row;
            r.state in {stored.state, Draining, Deleted} && Place(stored.state) <= Place(r.state)
  {
  }

  lemma RunningMovesBackExactlyWhen(stored: Row, inst: Row, snap: Snapshot, now: int, e: AdvanceEnv)
    requires CopyOf(stored, inst, now)
    ensures var r := AdvanceRunning(stored, inst, snap, now, e).row;
            var busy := inst.runnerId != "" && snap.Has(inst.runnerId) && snap.runners[inst.runnerId].busy
                        && e.save.Applied();
            && (Place(r.state) < Place(stored.state) <==> Hidden(stored.state) && busy)
            && (busy ==> r.state == Busy)
  {
    DestroyMovesOn(stored, inst, true, now, e.destroy);
  }

  /** The states do not form a line: an advance moves a row back exactly when it is Draining or Failed and its machine
      turns out to be at work, and then it moves back to Busy. */
  lemma AdvanceMovesBackExactlyWhen(r: Row, pool: Pool, m: Option<Machine>, snap: Snapshot, now: int, e: AdvanceEnv)
    requires r.Live()
    ensures var r' := Advance(r, pool, m, snap, now, e).row;
            && (Place(r'.state) < Place(r.state) <==> Hidden(r.state) && FoundBusy(r, pool, m, snap, now, e))
            && (FoundBusy(r, pool, m, snap, now, e) ==> r'.state == Busy)
  {
    DestroyMovesOn(r, r, true, now, e.destroy);
    if m.Some? {
      var up := Sighted(r, m.value, now);
      assert CopyOf(r, up, now) && CopyOf(AfterCapture(r, up, e), up, now);
      DestroyMovesOn(r, up, true, now, e.destroy);
      DestroyMovesOn(AfterCapture(r, up, e), up, true, now, e.destroy);
      RunningMovesBackExactlyWhen(r, up, snap, now, e);
    }
  }

  /** With every call working, a row that is still live after its advance is within its lifetime, and either never
      got a machine (and has not failed) or has one that is running or creating. */
  lemma SurvivorsAreHealthy(r: Row, pool: Pool, m: Option<Machine>, snap: Snapshot, now: int, e: AdvanceEnv)
    requires r.Live() && e.got && e.destroy == DestroyEnv(Ok, Ok, Ok, Ok) && (e.logs.Some? ==> e.logs.value.Ok?)
             && e.save.Ok?
    ensures var f := Advance(r, pool, m, snap, now, e);
            f.row.Live() ==>
              && !Expired(pool, f.row, now)
              && (if r.providerId == "" then f.row.state != Failed
                  else m.Some? && (m.value.state == Running || m.value.state == Creating) && !f.machineGone)
  {
  }

  // ---- applying a fate to the world ----

  lemma ApplyKeepsInv(w: World, pool: Pool, name: string, f: Fate)
    requires Inv(w) && LiveRow(w, name) && w.pools[w.rows[name].poolId] == pool && Sound(w.rows[name], f)
    ensures Inv(Apply(w, pool, name, f))
  {
    var r := w.rows[name];
    var k := Mid(pool.cloudId, r.providerId);
    var w' := Apply(w, pool, name, f);
    assert Fits(w, name, r);
    forall j | j in w'.machines && Ours(w'.self, w'.machines[j]) && w'.machines[j].name == name
      ensures Accounts(w', f.row, j)
    {
      assert j in w.machines && Accounts(w, r, j);
    }
    forall n | n in w'.rows ensures Fits(w', n, w'.rows[n]) {
      if n != name {
        FewerMachinesStillFit(w, w', n, w.rows[n]);
      }
    }
  }

  /** Fits reads the pools, the machines and the issued ids, and survives the loss of machines. */
  lemma FewerMachinesStillFit(w: World, w': World, name: string, r: Row)
    requires Fits(w, name, r)
    requires w'.self == w.self && w'.pools == w.pools && w'.past.issued == w.past.issued
    requires forall k :: k in w'.machines ==> k in w.machines && w'.machines[k] == w.machines[k]
    ensures Fits(w', name, r)
  {
  }

  /** Two live rows with the same pool and provider id are equally consistent. */
  lemma FitsSameIdentity(w: World, name: string, r: Row, r': Row)
    requires Fits(w, name, r) && r.Live() && r'.Live()
    requires r'.poolId == r.poolId && r'.providerId == r.providerId
    ensures Fits(w, name, r')
  {
  }
}
