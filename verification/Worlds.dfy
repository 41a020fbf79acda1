/** The state the lifecycle protocol runs on: the tables, what the clouds and forges really hold, and the clock.
    Also the primitive effects every operation is made of, and the invariant they keep. */
module Worlds {
  import opened Types
  import opened Instances

  // ---- clouds ----

  const NAME_PREFIX := "rf-"
  const TAG_CONTROLLER := "runnerforge-controller"
  const TAG_POOL := "runnerforge-pool"

  datatype MachineState = Creating | Running | Stopped | Errored | Gone

  /** A machine as the provider reports it; `createdAt` is None when the provider reports no creation time. */
  datatype Machine = Machine(name: string, state: MachineState, createdAt: Option<int>, tags: map<string, string>)

  /** Machine ids are unique within a cloud account. */
  datatype Mid = Mid(cloud: nat, id: string)

  function Tag(tags: map<string, string>, key: string): string {
    if key in tags then tags[key] else ""
  }

  datatype Owner = Owner(controller: string, pool: string)
  {
    function Tags(): map<string, string> {
      map[TAG_CONTROLLER := controller, TAG_POOL := pool]
    }

    predicate Matches(tags: map<string, string>) {
      && Tag(tags, TAG_CONTROLLER) == controller
      && (pool == "" || Tag(tags, TAG_POOL) == pool)
    }
  }

  /** A controller's sweep finds exactly what was tagged by that controller, whatever the pool; a pool's owner
      finds that pool's machines only. */
  lemma MatchesExactlyItsOwnTags(o: Owner, tagged: Owner)
    ensures o.Matches(tagged.Tags()) <==> o.controller == tagged.controller && (o.pool == "" || o.pool == tagged.pool)
  {
  }

  // ---- forges ----

  datatype Runner = Runner(name: string, busy: bool, online: bool)

  datatype Rid = Rid(forge: nat, id: string)

  // ---- pools ----

  datatype Pool = Pool(
    name: string,
    enabled: bool,
    forgeId: nat,
    cloudId: nat,
    labels: seq<string>,
    minIdle: int,
    maxInstances: int,
    maxLifetimeSec: int,
    sizeUSD: Option<real>)
  {
    function MaxLifetime(): int { maxLifetimeSec * SECOND }

    /** What one of its machines costs per hour: nothing while the pool has no size. */
    function HourlyRate(): real { if sizeUSD.None? then 0.0 else sizeUSD.value }
  }

  // ---- the world ----

  /** A runner listing contained registration `rid`, which was that of the row `name`. */
  datatype Sighting = Sighting(name: string, rid: Rid)

  /** What happened, as far as the claims speak of it: names whose rows went away with their pool (or with a
      lost database), what runner listings contained, machine ids ever handed out. */
  datatype Past = Past(retired: set<string>, seen: set<Sighting>, issued: set<Mid>)

  /** `self` is this deployment's id. Clouds and forges map a record's id to whether it is enabled. */
  datatype World = World(
    self: string,
    clouds: map<nat, bool>,
    forges: map<nat, bool>,
    pools: map<nat, Pool>,
    rows: map<string, Row>,
    machines: map<Mid, Machine>,
    runners: map<Rid, Runner>,
    now: int,
    past: Past)

  predicate HasOurName(name: string) { NAME_PREFIX <= name }

  /** Carries this deployment's tag and a name of its shape. */
  predicate Ours(self: string, m: Machine) {
    Owner(self, "").Matches(m.tags) && HasOurName(m.name)
  }

  predicate LiveRow(w: World, name: string) {
    name in w.rows && w.rows[name].Live()
  }

  ghost predicate LiveIn(w: World, poolId: nat, name: string) {
    LiveRow(w, name) && w.rows[name].poolId == poolId
  }

  function LiveNames(w: World, poolId: nat): set<string> {
    set n | n in w.rows && w.rows[n].Live() && w.rows[n].poolId == poolId
  }

  // ---- primitive effects ----

  function Save(w: World, name: string, r: Row, reply: Reply): World {
    if reply.Applied() then w.(rows := w.rows[name := r]) else w
  }

  function RemoveMachine(w: World, k: Mid, reply: Reply): World {
    if reply.Applied() then w.(machines := w.machines - {k}) else w
  }

  function RemoveRunner(w: World, k: Rid, reply: Reply): World {
    if reply.Applied() then w.(runners := w.runners - {k}) else w
  }

  // ---- the invariant ----

  /** Machine `k` is one that row `r` accounts for. A live row knows where its machine is; a closed row may only
      leave a machine behind when it never learned the machine's id. */
  ghost predicate Accounts(w: World, r: Row, k: Mid)
    requires k in w.machines
  {
    && r.poolId in w.pools
    && (r.Live() ==>
          && k.cloud == w.pools[r.poolId].cloudId
          && Tag(w.machines[k].tags, TAG_POOL) == w.pools[r.poolId].name
          && (r.providerId != "" ==> k.id == r.providerId))
    && (!r.Live() ==> r.providerId == "")
  }

  /** The provider id of a live row names a machine of the row's own name, as long as it exists. */
  ghost predicate PointsHome(w: World, name: string, r: Row) {
    r.Live() && r.providerId != "" && r.poolId in w.pools ==>
      var k := Mid(w.pools[r.poolId].cloudId, r.providerId);
      k in w.past.issued && (k in w.machines ==> Ours(w.self, w.machines[k]) && w.machines[k].name == name)
  }

  /** Row `r` under `name` is consistent with the machines that exist. */
  ghost predicate Fits(w: World, name: string, r: Row) {
    && HasOurName(name)
    && r.poolId in w.pools
    && (forall k :: k in w.machines && Ours(w.self, w.machines[k]) && w.machines[k].name == name ==> Accounts(w, r, k))
    && PointsHome(w, name, r)
  }

  ghost predicate PoolsOk(w: World) {
    && (forall p :: p in w.pools ==> w.pools[p].cloudId in w.clouds && w.pools[p].forgeId in w.forges)
    && (forall p, q :: p in w.pools && q in w.pools && w.pools[p].name == w.pools[q].name ==> p == q)
  }

  ghost predicate RowsFit(w: World) {
    forall n :: n in w.rows ==> Fits(w, n, w.rows[n])
  }

  /** Every machine of ours has a row of its name, or lost it. */
  ghost predicate MachinesKnown(w: World) {
    forall k :: k in w.machines && Ours(w.self, w.machines[k]) ==>
      w.machines[k].name in w.rows || w.machines[k].name in w.past.retired
  }

  ghost predicate OneMachinePerName(w: World) {
    forall j, k :: (j in w.machines && k in w.machines && Ours(w.self, w.machines[j]) && Ours(w.self, w.machines[k])
                    && w.machines[j].name == w.machines[k].name) ==> j == k
  }

  ghost predicate Inv(w: World) {
    && PoolsOk(w)
    && RowsFit(w)
    && MachinesKnown(w)
    && OneMachinePerName(w)
    && w.machines.Keys <= w.past.issued
  }

  /** What the invariant says about leaks: a machine of ours has a live row of its name, or a closed row that never
      learned its id, or no row because the row went away with its pool. */
  ghost predicate Accounted(w: World, m: Machine) {
    || LiveRow(w, m.name)
    || (m.name in w.rows && w.rows[m.name].state == Deleted && w.rows[m.name].providerId == "")
    || (m.name !in w.rows && m.name in w.past.retired)
  }

  lemma InvAccounts(w: World)
    requires Inv(w)
    ensures forall k :: k in w.machines && Ours(w.self, w.machines[k]) ==> Accounted(w, w.machines[k])
  {
  }

  // ---- the primitive effects keep the invariant ----

  /** Fits reads nothing of the rows or the runners. */
  lemma FitsIgnoresTables(w: World, w': World, name: string, r: Row)
    requires Fits(w, name, r)
    requires w'.self == w.self && w'.pools == w.pools && w'.machines == w.machines && w'.past.issued == w.past.issued
    ensures Fits(w', name, r)
  {
  }

  lemma SaveKeepsInv(w: World, name: string, r: Row, reply: Reply)
    requires Inv(w) && Fits(w, name, r)
    ensures Inv(Save(w, name, r, reply))
  {
    var w' := Save(w, name, r, reply);
    forall n | n in w'.rows ensures Fits(w', n, w'.rows[n]) {
      FitsIgnoresTables(w, w', n, if n == name && reply.Applied() then r else w.rows[n]);
    }
  }

}
