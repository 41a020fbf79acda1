/** What it costs to rename a pool, or to move it to another cloud, while it has machines (internal/web/web.go,
    internal/k8s/reconcile.go; internal/controller/reap.go): the two changes that the system does not allow its
    operator. */
module Moves {
  import opened Types
  import opened Instances
  import opened Worlds
  import opened Reaper

  function WithPool(w: World, p: nat, pool: Pool): World { w.(pools := w.pools[p := pool]) }

  /** The machine is one the reaper has no other reason to take: its row is live and it is not too old. */
  ghost predicate Sound(w: World, p: nat, k: Mid)
    requires p in w.pools
  {
    && k in w.machines && Ours(w.self, w.machines[k]) && LiveRow(w, w.machines[k].name)
    && Tag(w.machines[k].tags, TAG_POOL) == w.pools[p].name
    && (w.machines[k].createdAt.Some? ==> w.now - w.machines[k].createdAt.value <= w.pools[p].MaxLifetime())
  }

  lemma JudgedAfterRename(w: World, p: nat, pool: Pool, k: Mid)
    requires PoolsOk(w) && p in w.pools && Sound(w, p, k) && pool.MaxLifetime() == w.pools[p].MaxLifetime()
    requires forall q :: q in w.pools && q != p ==> w.pools[q].name != pool.name
    ensures Unjustified(WithPool(w, p, pool), k) <==> pool.name != w.pools[p].name
  {
    var w' := WithPool(w, p, pool);
    assert forall q :: q in w'.pools && w'.pools[q].name == w.pools[p].name ==> q == p;
    assert p in w'.pools && w'.pools[p] == pool;
  }

  /** Machines carry their pool's name, so after the pool is given another a sweep of their cloud in which every call
      works takes them all, whatever they are doing; and it takes none if the name stays. */
  lemma RenamedPoolLosesItsMachines(w: World, p: nat, pool: Pool, vs: seq<CloudVisit>, v: CloudVisit, k: Mid)
    requires PoolsOk(w) && OneMachinePerName(w) && p in w.pools && Sound(w, p, k)
    requires pool.MaxLifetime() == w.pools[p].MaxLifetime()
    requires forall q :: q in w.pools && q != p ==> w.pools[q].name != pool.name
    requires ListingsVisited(WithPool(w, p, pool), vs) && v in vs && CloudVisitOk(v) && k.cloud == v.cloud
    ensures k !in ReapClouds(WithPool(w, p, pool), vs).machines <==> pool.name != w.pools[p].name
  {
    var w' := WithPool(w, p, pool);
    JudgedAfterRename(w, p, pool, k);
    ReapCloudsKeeps(w', vs);
    if Unjustified(w', k) { ReapCloudsComplete(w', vs, v, k); }
  }

  /** Rows are looked up on their pool's cloud, so after the pool is moved to another a sweep of the rows in which every
      call works closes those whose id means nothing there, while their machines go on running where they are. */
  lemma MovedPoolLosesItsRows(w: World, p: nat, pool: Pool, vs: seq<RowVisit>, v: RowVisit)
    requires p in w.pools && LiveRow(w, v.name) && w.rows[v.name].poolId == p && w.rows[v.name].providerId != ""
    requires v in vs && RowVisitOk(v)
    ensures var w' := ReapRows(WithPool(w, p, pool), vs);
            && (LiveRow(w', v.name) <==> Mid(pool.cloudId, w.rows[v.name].providerId) in w.machines)
            && w'.machines == w.machines
  {
    RowSweepGuarantee(WithPool(w, p, pool), vs);
  }
}
