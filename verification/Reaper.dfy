/** The three sweeps of the reaper (internal/controller/reap.go) as functions of the world and of what the outside
    answered, and what each of them guarantees. */
module Reaper {
  import opened Types
  import opened Instances
  import opened Worlds
  import Lifecycle

  // ---- what the sweeps have in common ----

  /** A sweep closes live rows and changes no row in any other way. */
  ghost predicate RowsSwept(rows: map<string, Row>, rows': map<string, Row>, now: int) {
    && rows'.Keys == rows.Keys
    && forall n :: n in rows ==> rows'[n] == rows[n] || (rows[n].Live() && rows'[n] == Stamp(rows[n], Deleted, now))
  }

  /** The entries that are left are as they were. */
  ghost predicate Shrunk<K, V>(m: map<K, V>, m': map<K, V>) {
    forall k :: k in m' ==> k in m && m'[k] == m[k]
  }

  /** A sweep closes live rows and removes machines and registrations; it does nothing else. */
  ghost predicate Swept(w: World, w': World) {
    && w' == w.(rows := w'.rows, machines := w'.machines, runners := w'.runners)
    && RowsSwept(w.rows, w'.rows, w.now)
    && Shrunk(w.machines, w'.machines)
    && Shrunk(w.runners, w'.runners)
  }

  lemma SweptTransitive(a: World, b: World, c: World)
    requires Swept(a, b) && Swept(b, c)
    ensures Swept(a, c)
  {
  }

  lemma SweptEvolves(w: World, w': World, n: string)
    requires Swept(w, w') && n in w.rows && RowOk(w.rows[n], w.now)
    ensures n in w'.rows && Evolves(w.rows[n], w'.rows[n], w.now) && RowOk(w'.rows[n], w.now)
  {
  }

  // ---- reapClouds: the verdict ----

  datatype Reason = NoRecord | MarkedDeleted | PoolGone | TooOld

  /** The lifetime of the pool of a name; pool names are unique. */
  ghost function LifetimeOf(pools: map<nat, Pool>, name: string): Option<int> {
    if p :| p in pools && pools[p].name == name then Some(pools[p].MaxLifetime()) else None
  }

  /** Why a machine found in a cloud has to go, if it does. A machine of a foreign name is never touched. */
  ghost function Judge(w: World, m: Machine): Option<Reason> {
    if !HasOurName(m.name) then None
    else if m.name !in w.rows then Some(NoRecord)
    else if w.rows[m.name].state == Deleted then Some(MarkedDeleted)
    else
      match LifetimeOf(w.pools, Tag(m.tags, TAG_POOL))
      case None => Some(PoolGone)
      case Some(lifetime) =>
        if m.createdAt.None? then None
        else if w.now - m.createdAt.value > lifetime then Some(TooOld) else None
  }

  /** A machine this deployment owns and can no longer justify. */
  ghost predicate Unjustified(w: World, k: Mid) {
    k in w.machines && Ours(w.self, w.machines[k]) && Judge(w, w.machines[k]).Some?
  }

  // ---- reapClouds: the sweep ----

  /** The visit of one listed machine: whether the row lookup worked, the delete, the save that closes the row. */
  datatype MachineVisit = MachineVisit(id: string, lookup: bool, delete: Reply, close: Reply)

  /** The visit of one cloud: whether its client could be built, whether the listing worked, its machines. */
  datatype CloudVisit = CloudVisit(cloud: nat, resolved: bool, listed: bool, machines: seq<MachineVisit>)

  /** What the provider lists for this deployment. */
  function Listing(w: World, cloud: nat): map<string, Machine> {
    map k | k in w.machines && k.cloud == cloud && Owner(w.self, "").Matches(w.machines[k].tags) ::
      k.id := w.machines[k]
  }

  /** Whether the visit gets as far as the delete. */
  ghost predicate Reaps(w: World, m: Machine, v: MachineVisit) { v.lookup && Judge(w, m).Some? }

  /** The rows after the machine of `name` was reaped. */
  function RowsAfterReap(rows: map<string, Row>, name: string, now: int, v: MachineVisit): map<string, Row> {
    if v.delete.Ok? && name in rows && rows[name].Live() && v.close.Applied()
    then rows[name := Stamp(rows[name], Deleted, now)]
    else rows
  }

  ghost function ReapMachine(w: World, k: Mid, m: Machine, v: MachineVisit): World {
    if Reaps(w, m, v)
    then w.(rows := RowsAfterReap(w.rows, m.name, w.now, v),
            machines := if v.delete.Applied() then w.machines - {k} else w.machines)
    else w
  }

  ghost function ReapListing(w: World, cloud: nat, listing: map<string, Machine>, vs: seq<MachineVisit>): World {
    if vs == [] then w
    else
      var v := vs[|vs| - 1];
      var before := ReapListing(w, cloud, listing, vs[..|vs| - 1]);
      if v.id in listing then ReapMachine(before, Mid(cloud, v.id), listing[v.id], v) else before
  }

  ghost function ReapCloud(w: World, v: CloudVisit): World {
    if v.resolved && v.listed then ReapListing(w, v.cloud, Listing(w, v.cloud), v.machines) else w
  }

  ghost function ReapClouds(w: World, vs: seq<CloudVisit>): World {
    if vs == [] then w else ReapCloud(ReapClouds(w, vs[..|vs| - 1]), vs[|vs| - 1])
  }

  function MachineIds(vs: seq<MachineVisit>): seq<string> {
    seq(|vs|, i requires 0 <= i < |vs| => vs[i].id)
  }

  function CloudIds(vs: seq<CloudVisit>): seq<nat> {
    seq(|vs|, i requires 0 <= i < |vs| => vs[i].cloud)
  }

  /** On each cloud that answered, every listed machine is visited once. */
  ghost predicate ListingsVisited(w: World, vs: seq<CloudVisit>) {
    vs == [] ||
    (var v, before := vs[|vs| - 1], vs[..|vs| - 1];
     && ListingsVisited(w, before)
     && (v.resolved && v.listed ==>
           Enumerates(MachineIds(v.machines), Listing(ReapClouds(w, before), v.cloud).Keys)))
  }

  /** The visits are those of a whole pass: every configured cloud once, enabled or not. */
  ghost predicate CloudPass(w: World, vs: seq<CloudVisit>) {
    Enumerates(CloudIds(vs), w.clouds.Keys) && ListingsVisited(w, vs)
  }

  predicate MachineVisitOk(v: MachineVisit) { v.lookup && v.delete.Ok? }

  /** Every call made to this cloud worked, and so did the lookups; whether the rows could be closed does not
      matter. */
  predicate CloudVisitOk(v: CloudVisit) {
    v.resolved && v.listed && forall m :: m in v.machines ==> MachineVisitOk(m)
  }

  /** What any number of machine visits have done, seen from the world the sweep started in: only unjustified
      machines are gone, and where a row changed no machine of its name is left. */
  ghost predicate OnlyUnjustified(w: World, w': World) {
    && Swept(w, w')
    && w'.runners == w.runners
    && (forall k :: k in w.machines && k !in w'.machines ==> Unjustified(w, k))
    && (forall k :: k in w'.machines && Ours(w.self, w'.machines[k]) ==> SameRow(w, w', w'.machines[k].name))
  }

  predicate SameRow(w: World, w': World, n: string) {
    (n in w'.rows <==> n in w.rows) && (n in w.rows && n in w'.rows ==> w'.rows[n] == w.rows[n])
  }

  /** A machine that is still there is judged as it was when the sweep began. */
  lemma JudgeIsStable(w: World, w': World, k: Mid)
    requires OnlyUnjustified(w, w') && k in w'.machines && Ours(w.self, w.machines[k])
    ensures Judge(w', w'.machines[k]) == Judge(w, w.machines[k])
  {
  }

  lemma ReapMachineStep(w: World, w': World, k: Mid, v: MachineVisit)
    requires OneMachinePerName(w) && OnlyUnjustified(w, w')
    requires k in w.machines && Owner(w.self, "").Matches(w.machines[k].tags)
    ensures var w'' := ReapMachine(w', k, w.machines[k], v);
            && OnlyUnjustified(w, w'')
            && Shrunk(w'.machines, w''.machines)
            && (v.lookup && v.delete.Ok? && Unjustified(w, k) ==> k !in w''.machines)
  {
    RemainingKeepRows(w, w', k, v);
    RemovedAreUnjustified(w, w', k, v);
    ReapMachineSwept(w, w', k, v);
  }

  lemma ReapMachineSwept(w: World, w': World, k: Mid, v: MachineVisit)
    requires Swept(w, w') && w'.runners == w.runners && k in w.machines
    ensures var w'' := ReapMachine(w', k, w.machines[k], v);
            Swept(w, w'') && w''.runners == w.runners && Shrunk(w'.machines, w''.machines)
  {
  }

  lemma RemovedAreUnjustified(w: World, w': World, k: Mid, v: MachineVisit)
    requires OnlyUnjustified(w, w') && k in w.machines && Owner(w.self, "").Matches(w.machines[k].tags)
    ensures var w'' := ReapMachine(w', k, w.machines[k], v);
            && (forall j :: j in w.machines && j !in w''.machines ==> Unjustified(w, j))
            && (v.lookup && v.delete.Ok? && Unjustified(w, k) ==> k !in w''.machines)
  {
  }

  lemma RemainingKeepRows(w: World, w': World, k: Mid, v: MachineVisit)
    requires OneMachinePerName(w) && OnlyUnjustified(w, w')
    requires k in w.machines && Owner(w.self, "").Matches(w.machines[k].tags)
    ensures var w'' := ReapMachine(w', k, w.machines[k], v);
            forall j :: j in w''.machines && Ours(w.self, w''.machines[j]) ==> SameRow(w, w'', w''.machines[j].name)
  {
  }

  /** The visits of one cloud's listing: the relation to the start of the sweep is kept, and what was unjustified
      and could be deleted is gone. */
  lemma {:induction false} ReapListingKeeps(w: World, w': World, cloud: nat, listing: map<string, Machine>,
                                            vs: seq<MachineVisit>)
    requires OneMachinePerName(w) && OnlyUnjustified(w, w')
    requires forall id :: id in listing ==>
      && Mid(cloud, id) in w.machines && w.machines[Mid(cloud, id)] == listing[id]
      && Owner(w.self, "").Matches(listing[id].tags)
    ensures var w'' := ReapListing(w', cloud, listing, vs);
            && OnlyUnjustified(w, w'')
            && Shrunk(w'.machines, w''.machines)
            && (forall v :: (v in vs && v.id in listing && v.lookup && v.delete.Ok?
                             && Unjustified(w, Mid(cloud, v.id))) ==> Mid(cloud, v.id) !in w''.machines)
  {
    if vs != [] {
      var v := vs[|vs| - 1];
      ReapListingKeeps(w, w', cloud, listing, vs[..|vs| - 1]);
      if v.id in listing {
        ReapMachineStep(w, ReapListing(w', cloud, listing, vs[..|vs| - 1]), Mid(cloud, v.id), v);
      }
      forall u | u in vs && u != v ensures u in vs[..|vs| - 1] {
      }
    }
  }

  lemma {:induction false} ReapCloudsKeeps(w: World, vs: seq<CloudVisit>)
    requires OneMachinePerName(w)
    ensures OnlyUnjustified(w, ReapClouds(w, vs))
  {
    if vs != [] {
      ReapCloudsKeeps(w, vs[..|vs| - 1]);
      ReapCloudStep(w, ReapClouds(w, vs[..|vs| - 1]), vs[|vs| - 1]);
    }
  }

  lemma ReapCloudStep(w: World, w': World, v: CloudVisit)
    requires OneMachinePerName(w) && OnlyUnjustified(w, w')
    ensures var w'' := ReapCloud(w', v);
            && OnlyUnjustified(w, w'')
            && Shrunk(w'.machines, w''.machines)
            && (CloudVisitOk(v) && Enumerates(MachineIds(v.machines), Listing(w', v.cloud).Keys) ==>
                  forall k :: Unjustified(w, k) && k.cloud == v.cloud ==> k !in w''.machines)
  {
    if v.resolved && v.listed {
      var listing := Listing(w', v.cloud);
      ReapListingKeeps(w, w', v.cloud, listing, v.machines);
      var w'' := ReapCloud(w', v);
      if CloudVisitOk(v) && Enumerates(MachineIds(v.machines), listing.Keys) {
        forall k | Unjustified(w, k) && k.cloud == v.cloud
          ensures k !in w''.machines
        {
          if k in w'.machines {
            assert k == Mid(v.cloud, k.id) && k.id in listing;
            VisitedOnce(v.machines, listing.Keys, k.id);
          }
        }
      }
    }
  }

  lemma VisitedOnce(vs: seq<MachineVisit>, ids: set<string>, id: string)
    requires Enumerates(MachineIds(vs), ids) && id in ids
    ensures exists v :: v in vs && v.id == id
  {
  }

  lemma {:induction false} ReapCloudsComplete(w: World, vs: seq<CloudVisit>, v: CloudVisit, k: Mid)
    requires OneMachinePerName(w) && ListingsVisited(w, vs)
    requires v in vs && CloudVisitOk(v) && Unjustified(w, k) && k.cloud == v.cloud
    ensures k !in ReapClouds(w, vs).machines
  {
    var last, before := vs[|vs| - 1], vs[..|vs| - 1];
    ReapCloudsKeeps(w, before);
    ReapCloudStep(w, ReapClouds(w, before), last);
    if v != last {
      assert v in before;
      ReapCloudsComplete(w, before, v, k);
    }
  }

  // ---- reapClouds: what it guarantees ----

  /** A machine the reaper leaves alone for good reason. */
  ghost predicate Justified(w: World, m: Machine) {
    && LiveRow(w, m.name)
    && exists p :: p in w.pools && w.pools[p].name == Tag(m.tags, TAG_POOL) &&
                   (m.createdAt.Some? ==> w.now - m.createdAt.value <= w.pools[p].MaxLifetime())
  }

  lemma UnjudgedIsJustified(w: World, m: Machine)
    requires PoolsOk(w)
    ensures HasOurName(m.name) && Judge(w, m).None? <==> HasOurName(m.name) && Justified(w, m)
  {
  }

  /** Among the machines that carry this deployment's tag, a visit whose calls work removes exactly those of its name
      pattern that have no row or a Deleted one, whose pool is gone, or that are older than their pool allows; a machine
      of unknown age is not too old. The row is closed with it. */
  lemma MachineGoesExactlyWhen(w: World, k: Mid, m: Machine, v: MachineVisit)
    requires PoolsOk(w) && k in w.machines && v.lookup && v.delete.Ok? && v.close.Applied()
    ensures var w' := ReapMachine(w, k, m, v);
            && (k !in w'.machines <==>
                && "rf-" <= m.name
                && (|| m.name !in w.rows || w.rows[m.name].state == Deleted
                    || !(exists p :: p in w.pools && w.pools[p].name == Tag(m.tags, TAG_POOL))
                    || (exists p :: p in w.pools && w.pools[p].name == Tag(m.tags, TAG_POOL) && m.createdAt.Some?
                                    && w.now - m.createdAt.value > w.pools[p].maxLifetimeSec * 1_000_000_000)))
            && w'.machines == (if k in w'.machines then w.machines else w.machines - {k})
            && w'.runners == w.runners
            && w'.rows == (if k !in w'.machines && m.name in w.rows && w.rows[m.name].state != Deleted
                           then w.rows[m.name := w.rows[m.name].(state := Deleted,
                                                                 destroyedAt := FirstOf(w.rows[m.name].destroyedAt,
                                                                                        w.now))]
                           else w.rows)
  {
  }

  /** After a sweep of the clouds, whatever failed elsewhere: on a cloud whose own calls worked, every machine of ours
      that is left has a live row, a tag naming an existing pool, and no age beyond that pool's lifetime. Anywhere,
      a machine that is gone was ours and could not be justified, and rows are at most closed. */
  lemma CloudSweepGuarantee(w: World, vs: seq<CloudVisit>)
    requires Inv(w) && CloudPass(w, vs)
    ensures var w' := ReapClouds(w, vs);
            && Swept(w, w') && w'.runners == w.runners
            && (forall v, k :: (v in vs && CloudVisitOk(v) && k in w'.machines && k.cloud == v.cloud
                                && Ours(w.self, w'.machines[k])) ==> Justified(w', w'.machines[k]))
            && (forall k :: k in w.machines && k !in w'.machines ==>
                  Ours(w.self, w.machines[k]) && !Justified(w, w.machines[k]))
  {
    var w' := ReapClouds(w, vs);
    ReapCloudsKeeps(w, vs);
    forall v, k | v in vs && CloudVisitOk(v) && k in w'.machines && k.cloud == v.cloud && Ours(w.self, w'.machines[k])
      ensures Justified(w', w'.machines[k])
    {
      if Unjustified(w, k) { ReapCloudsComplete(w, vs, v, k); }
      JudgeIsStable(w, w', k);
      UnjudgedIsJustified(w', w'.machines[k]);
    }
    forall k | k in w.machines && k !in w'.machines
      ensures Ours(w.self, w.machines[k]) && !Justified(w, w.machines[k])
    {
      UnjudgedIsJustified(w, w.machines[k]);
    }
  }

  /** A row is closed by the cloud sweep only when a machine of its name was removed. */
  ghost predicate ClosedLostMachine(w: World, w': World) {
    forall n :: n in w.rows && n in w'.rows && w'.rows[n] != w.rows[n] ==> n in GoneNames(w, w')
  }

  function GoneNames(w: World, w': World): set<string> {
    set k | k in w.machines && k !in w'.machines :: w.machines[k].name
  }

  lemma {:induction false} ListingClosesOnlyLost(w: World, w': World, cloud: nat, listing: map<string, Machine>,
                                                 vs: seq<MachineVisit>)
    requires ClosedLostMachine(w, w') && Shrunk(w.machines, w'.machines) && w'.rows.Keys == w.rows.Keys
    requires forall id :: id in listing ==> Mid(cloud, id) in w.machines && w.machines[Mid(cloud, id)] == listing[id]
    ensures var w'' := ReapListing(w', cloud, listing, vs);
            ClosedLostMachine(w, w'') && Shrunk(w.machines, w''.machines) && w''.rows.Keys == w.rows.Keys
  {
    if vs != [] {
      var v, before := vs[|vs| - 1], ReapListing(w', cloud, listing, vs[..|vs| - 1]);
      ListingClosesOnlyLost(w, w', cloud, listing, vs[..|vs| - 1]);
      if v.id in listing { VisitClosesOnlyLost(w, before, Mid(cloud, v.id), v); }
    }
  }

  lemma VisitClosesOnlyLost(w: World, w': World, k: Mid, v: MachineVisit)
    requires ClosedLostMachine(w, w') && Shrunk(w.machines, w'.machines) && w'.rows.Keys == w.rows.Keys
    requires k in w.machines
    ensures var w'' := ReapMachine(w', k, w.machines[k], v);
            ClosedLostMachine(w, w'') && Shrunk(w.machines, w''.machines) && w''.rows.Keys == w.rows.Keys
  {
  }

  lemma {:induction false} CloudsCloseOnlyLost(w: World, vs: seq<CloudVisit>)
    ensures var w' := ReapClouds(w, vs);
            && ClosedLostMachine(w, w') && Shrunk(w.machines, w'.machines) && w'.rows.Keys == w.rows.Keys
            && w'.self == w.self
  {
    if vs != [] {
      CloudsCloseOnlyLost(w, vs[..|vs| - 1]);
      var v, before := vs[|vs| - 1], ReapClouds(w, vs[..|vs| - 1]);
      if v.resolved && v.listed {
        ListingClosesOnlyLost(w, before, v.cloud, Listing(before, v.cloud), v.machines);
        ListingKeepsSelf(before, v.cloud, Listing(before, v.cloud), v.machines);
      }
    }
  }

  lemma {:induction false} ListingKeepsSelf(w: World, cloud: nat, listing: map<string, Machine>, vs: seq<MachineVisit>)
    ensures ReapListing(w, cloud, listing, vs).self == w.self
  {
    if vs != [] { ListingKeepsSelf(w, cloud, listing, vs[..|vs| - 1]); }
  }

  /** The cloud sweep keeps the invariant, also when deletes or saves fail. */
  lemma CloudSweepKeepsInv(w: World, vs: seq<CloudVisit>)
    requires Inv(w)
    ensures Inv(ReapClouds(w, vs))
  {
    var w' := ReapClouds(w, vs);
    ReapCloudsKeeps(w, vs);
    forall n | n in w'.rows ensures Fits(w', n, w'.rows[n]) {
      Lifecycle.FewerMachinesStillFit(w, w', n, w.rows[n]);
      if w'.rows[n] != w.rows[n] { ClosedAndGoneFits(w, w', n); }
    }
    forall k | k in w'.machines && Ours(w'.self, w'.machines[k])
      ensures w'.machines[k].name in w'.rows || w'.machines[k].name in w'.past.retired
    {
      assert k in w.machines;
    }
  }

  lemma ClosedAndGoneFits(w: World, w': World, n: string)
    requires OnlyUnjustified(w, w') && n in w.rows && Fits(w, n, w.rows[n]) && w'.rows[n] != w.rows[n]
    ensures Fits(w', n, w'.rows[n])
  {
  }

  // ---- reapForges ----

  datatype RunnerVisit = RunnerVisit(id: string, lookup: bool, deprovision: Reply)

  datatype ForgeVisit = ForgeVisit(forge: nat, resolved: bool, listed: bool, runners: seq<RunnerVisit>)

  /** A registration of ours that is not running a job and has no live row behind it. Failed counts as dead here. */
  predicate Orphan(rows: map<string, Row>, r: Runner) {
    HasOurName(r.name) && !r.busy && !(r.name in rows && rows[r.name].state != Deleted && rows[r.name].state != Failed)
  }

  function ReapRunner(w: World, k: Rid, r: Runner, v: RunnerVisit): World {
    if v.lookup && Orphan(w.rows, r) then RemoveRunner(w, k, v.deprovision) else w
  }

  /** A visit whose calls work removes exactly the registrations of our name pattern that run no job and have no row, or
      a Deleted or Failed one. */
  lemma RunnerGoesExactlyWhen(w: World, k: Rid, r: Runner, v: RunnerVisit)
    requires k in w.runners && v.lookup && v.deprovision.Applied()
    ensures k !in ReapRunner(w, k, r, v).runners <==>
              && "rf-" <= r.name && !r.busy
              && (r.name !in w.rows || w.rows[r.name].state == Deleted || w.rows[r.name].state == Failed)
  {
  }

  function ReapRegistrations(w: World, forge: nat, listing: map<string, Runner>, vs: seq<RunnerVisit>): World {
    if vs == [] then w
    else
      var v := vs[|vs| - 1];
      var before := ReapRegistrations(w, forge, listing, vs[..|vs| - 1]);
      if v.id in listing then ReapRunner(before, Rid(forge, v.id), listing[v.id], v) else before
  }

  function ReapForge(w: World, v: ForgeVisit): World {
    if v.resolved && v.listed then ReapRegistrations(w, v.forge, Lifecycle.Registrations(w, v.forge), v.runners) else w
  }

  function ReapForges(w: World, vs: seq<ForgeVisit>): World {
    if vs == [] then w else ReapForge(ReapForges(w, vs[..|vs| - 1]), vs[|vs| - 1])
  }

  function RunnerIds(vs: seq<RunnerVisit>): seq<string> {
    seq(|vs|, i requires 0 <= i < |vs| => vs[i].id)
  }

  function ForgeIds(vs: seq<ForgeVisit>): seq<nat> {
    seq(|vs|, i requires 0 <= i < |vs| => vs[i].forge)
  }

  ghost predicate RegistrationsVisited(w: World, vs: seq<ForgeVisit>) {
    vs == [] ||
    (var v, before := vs[|vs| - 1], vs[..|vs| - 1];
     && RegistrationsVisited(w, before)
     && (v.resolved && v.listed ==>
           Enumerates(RunnerIds(v.runners), Lifecycle.Registrations(ReapForges(w, before), v.forge).Keys)))
  }

  ghost predicate ForgePass(w: World, vs: seq<ForgeVisit>) {
    Enumerates(ForgeIds(vs), w.forges.Keys) && RegistrationsVisited(w, vs)
  }

  predicate ForgeVisitOk(v: ForgeVisit) {
    v.resolved && v.listed && forall r :: r in v.runners ==> r.lookup && r.deprovision.Ok?
  }

  /** Only orphaned registrations are gone. */
  ghost predicate OnlyOrphans(w: World, w': World) {
    && w' == w.(runners := w'.runners)
    && Shrunk(w.runners, w'.runners)
    && forall k :: k in w.runners && k !in w'.runners ==> Orphan(w.rows, w.runners[k])
  }

  lemma {:induction false} ReapRegistrationsKeeps(w: World, w': World, forge: nat, listing: map<string, Runner>,
                                                  vs: seq<RunnerVisit>)
    requires OnlyOrphans(w, w')
    requires forall id :: id in listing ==> Rid(forge, id) in w.runners && w.runners[Rid(forge, id)] == listing[id]
    ensures var w'' := ReapRegistrations(w', forge, listing, vs);
            && OnlyOrphans(w, w'')
            && Shrunk(w'.runners, w''.runners)
            && (forall v :: (v in vs && v.id in listing && v.lookup && v.deprovision.Ok?
                             && Orphan(w.rows, listing[v.id])) ==> Rid(forge, v.id) !in w''.runners)
  {
    if vs != [] {
      var v := vs[|vs| - 1];
      ReapRegistrationsKeeps(w, w', forge, listing, vs[..|vs| - 1]);
      forall u | u in vs && u != v ensures u in vs[..|vs| - 1] {
      }
    }
  }

  lemma ReapForgeStep(w: World, w': World, v: ForgeVisit)
    requires OnlyOrphans(w, w')
    ensures var w'' := ReapForge(w', v);
            && OnlyOrphans(w, w'')
            && Shrunk(w'.runners, w''.runners)
            && (ForgeVisitOk(v) && Enumerates(RunnerIds(v.runners), Lifecycle.Registrations(w', v.forge).Keys) ==>
                  forall k :: k in w.runners && Orphan(w.rows, w.runners[k]) && k.forge == v.forge ==>
                    k !in w''.runners)
  {
    if v.resolved && v.listed {
      var listing := Lifecycle.Registrations(w', v.forge);
      ReapRegistrationsKeeps(w, w', v.forge, listing, v.runners);
      if ForgeVisitOk(v) && Enumerates(RunnerIds(v.runners), listing.Keys) {
        forall k | k in w.runners && Orphan(w.rows, w.runners[k]) && k.forge == v.forge
          ensures k !in ReapForge(w', v).runners
        {
          if k in w'.runners {
            assert k == Rid(v.forge, k.id) && k.id in listing;
            assert k.id in RunnerIds(v.runners);
            var i :| 0 <= i < |v.runners| && RunnerIds(v.runners)[i] == k.id;
            assert v.runners[i] in v.runners;
          }
        }
      }
    }
  }

  lemma {:induction false} ReapForgesKeeps(w: World, vs: seq<ForgeVisit>)
    ensures OnlyOrphans(w, ReapForges(w, vs))
  {
    if vs != [] {
      ReapForgesKeeps(w, vs[..|vs| - 1]);
      ReapForgeStep(w, ReapForges(w, vs[..|vs| - 1]), vs[|vs| - 1]);
    }
  }

  /** On a forge whose calls worked no orphaned registration is left; anywhere, only orphans go. */
  lemma {:induction false} ForgeSweepGuarantee(w: World, vs: seq<ForgeVisit>)
    requires RegistrationsVisited(w, vs)
    ensures var w' := ReapForges(w, vs);
            && OnlyOrphans(w, w')
            && (forall v, k :: v in vs && ForgeVisitOk(v) && k in w'.runners && k.forge == v.forge ==>
                  !Orphan(w'.rows, w'.runners[k]))
  {
    if vs != [] {
      var last, before := vs[|vs| - 1], vs[..|vs| - 1];
      ForgeSweepGuarantee(w, before);
      ReapForgesKeeps(w, before);
      ReapForgeStep(w, ReapForges(w, before), last);
      var w' := ReapForges(w, vs);
      forall v, k | v in vs && ForgeVisitOk(v) && k in w'.runners && k.forge == v.forge
        ensures !Orphan(w'.rows, w'.runners[k])
      {
        if v != last { assert v in before; }
      }
    }
  }

  // ---- reapRows ----

  /** How long a row may wait for its machine. */
  const GRACE: int := 10 * MINUTE

  /** The visit of one live row: the pool lookup, the cloud's client, the provider's answer, the save. */
  datatype RowVisit = RowVisit(name: string, lookup: bool, resolved: bool, got: bool, close: Reply)

  /** A live row with nothing behind it. */
  predicate Hollow(w: World, r: Row) {
    || r.poolId !in w.pools
    || (r.providerId == "" && w.now - r.createdAt > GRACE)
    || (r.providerId != "" && Mid(w.pools[r.poolId].cloudId, r.providerId) !in w.machines)
  }

  predicate Answered(v: RowVisit) { v.lookup && v.resolved && v.got }

  /** Whether the visit closes the row: calls are made only about a row that knows its machine. */
  predicate ClosesRow(w: World, r: Row, v: RowVisit) {
    Hollow(w, r) && (r.poolId !in w.pools || r.providerId == "" || Answered(v))
  }

  function ReapRow(w: World, v: RowVisit): World {
    w.(rows := if LiveRow(w, v.name) && ClosesRow(w, w.rows[v.name], v) && v.close.Applied()
               then w.rows[v.name := Stamp(w.rows[v.name], Deleted, w.now)]
               else w.rows)
  }

  /** A visit that is answered closes exactly the rows whose pool is gone, that have waited for their machine for more
      than ten minutes, or whose machine is gone; about the first two kinds nobody is asked. */
  lemma RowClosesExactlyWhen(w: World, v: RowVisit)
    requires LiveRow(w, v.name) && v.close.Applied()
    ensures var r, w' := w.rows[v.name], ReapRow(w, v);
            && (!LiveRow(w', v.name) <==>
                || r.poolId !in w.pools
                || (r.providerId == "" && w.now - r.createdAt > 600_000_000_000)
                || (r.providerId != "" && v.lookup && v.resolved && v.got
                    && Mid(w.pools[r.poolId].cloudId, r.providerId) !in w.machines))
            && w'.rows == (if LiveRow(w', v.name) then w.rows
                           else w.rows[v.name := r.(state := Deleted, destroyedAt := FirstOf(r.destroyedAt, w.now))])
  {
  }

  function ReapRows(w: World, vs: seq<RowVisit>): World {
    if vs == [] then w else ReapRow(ReapRows(w, vs[..|vs| - 1]), vs[|vs| - 1])
  }

  function RowNames(vs: seq<RowVisit>): seq<string> {
    seq(|vs|, i requires 0 <= i < |vs| => vs[i].name)
  }

  function AllLive(w: World): set<string> {
    set n | n in w.rows && w.rows[n].Live()
  }

  /** Only hollow rows were closed. */
  ghost predicate OnlyHollow(w: World, w': World) {
    && w' == w.(rows := w'.rows)
    && RowsSwept(w.rows, w'.rows, w.now)
    && forall n :: n in w.rows && w'.rows[n] != w.rows[n] ==> Hollow(w, w.rows[n])
  }

  predicate RowVisitOk(v: RowVisit) { Answered(v) && v.close.Ok? }

  lemma ReapRowStep(w: World, w': World, v: RowVisit)
    requires OnlyHollow(w, w')
    ensures OnlyHollow(w, ReapRow(w', v))
  {
  }

  lemma ReapRowCloses(w: World, w': World, v: RowVisit)
    requires OnlyHollow(w, w')
    ensures forall n :: n in w.rows && !w'.rows[n].Live() ==> !ReapRow(w', v).rows[n].Live()
    ensures RowVisitOk(v) && LiveRow(w, v.name) && Hollow(w, w.rows[v.name]) ==> !LiveRow(ReapRow(w', v), v.name)
  {
  }

  /** Every hollow row that was visited with all calls working is closed, and no other row changed. */
  lemma {:induction false} RowSweepGuarantee(w: World, vs: seq<RowVisit>)
    ensures var w' := ReapRows(w, vs);
            && OnlyHollow(w, w')
            && (forall v :: v in vs && RowVisitOk(v) && LiveRow(w, v.name) && Hollow(w, w.rows[v.name]) ==>
                  !LiveRow(w', v.name))
  {
    if vs != [] {
      var last, before := vs[|vs| - 1], vs[..|vs| - 1];
      RowSweepGuarantee(w, before);
      ReapRowStep(w, ReapRows(w, before), last);
      ReapRowCloses(w, ReapRows(w, before), last);
      forall v | v in vs && v != last ensures v in before {
      }
    }
  }

  lemma RowSweepKeepsInv(w: World, vs: seq<RowVisit>)
    requires Inv(w)
    ensures Inv(ReapRows(w, vs))
  {
    var w' := ReapRows(w, vs);
    RowSweepGuarantee(w, vs);
    forall n | n in w'.rows ensures Fits(w', n, w'.rows[n]) {
      HollowMayClose(w, w', n);
    }
  }

  lemma HollowMayClose(w: World, w': World, n: string)
    requires OnlyHollow(w, w') && n in w.rows && Fits(w, n, w.rows[n])
    ensures Fits(w', n, w'.rows[n])
  {
  }

  lemma ForgeSweepKeepsInv(w: World, vs: seq<ForgeVisit>)
    requires Inv(w)
    ensures Inv(ReapForges(w, vs))
  {
    var w' := ReapForges(w, vs);
    ReapForgesKeeps(w, vs);
    forall n | n in w'.rows ensures Fits(w', n, w'.rows[n]) {
      Lifecycle.FewerMachinesStillFit(w, w', n, w.rows[n]);
    }
  }
}
