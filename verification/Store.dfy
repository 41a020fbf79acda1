/** The tables as objects that are written in place: an instance in memory, and the database
    (internal/store/models.go, internal/store/store.go, internal/store/cost.go). */
module Stores {
  import opened Types
  import opened Instances
  import opened Worlds

  /** An instance as the controller holds it: a copy of a row, changed field by field and saved as a whole. */
  class Instance {
    const name: string
    const poolId: nat
    const jobId: string
    const hourly: real
    const createdAt: int
    var state: State
    var providerId: string
    var runnerId: string
    var billedSeconds: int
    var cost: real
    var activeAt: Option<int>
    var readyAt: Option<int>
    var claimedAt: Option<int>
    var finishedAt: Option<int>
    var destroyedAt: Option<int>

    constructor (name: string, r: Row)
      ensures this.name == name && AsRow() == r
    {
      this.name, poolId, jobId, hourly, createdAt := name, r.poolId, r.jobId, r.hourly, r.createdAt;
      state, providerId, runnerId := r.state, r.providerId, r.runnerId;
      billedSeconds, cost := r.billedSeconds, r.cost;
      activeAt, readyAt, claimedAt := r.activeAt, r.readyAt, r.claimedAt;
      finishedAt, destroyedAt := r.finishedAt, r.destroyedAt;
    }

    function AsRow(): Row
      reads this
    {
      Row(poolId, state, providerId, runnerId, jobId, hourly, billedSeconds, cost, createdAt,
          activeAt, readyAt, claimedAt, finishedAt, destroyedAt)
    }

    /** Records what the machine cost, at the moment it is destroyed. */
    method Settle(now: int)
      modifies this`billedSeconds, this`cost
      ensures AsRow() == Instances.Settle(old(AsRow()), now)
    {
      var d := BilledDuration(AsRow(), now);
      if d <= 0 {
        return;
      }
      billedSeconds := d / SECOND;
      cost := hourly * Hours(d);
    }
  }

  class Store {
    var clouds: map<nat, bool>
    var forges: map<nat, bool>
    var pools: map<nat, Pool>
    var rows: map<string, Row>

    constructor ()
      ensures clouds == map[] && forges == map[] && pools == map[] && rows == map[]
    {
      clouds, forges, pools, rows := map[], map[], map[], map[];
    }

    /** Writes the whole row. */
    method Save(inst: Instance, reply: Reply)
      modifies this`rows
      ensures rows == if reply.Applied() then old(rows)[inst.name := inst.AsRow()] else old(rows)
    {
      if reply.Applied() {
        rows := rows[inst.name := inst.AsRow()];
      }
    }

    /** Moves an instance to a new state, stamps the timestamp that belongs to it unless it has one, and saves it. */
    method SetState(inst: Instance, s: State, now: int, reply: Reply)
      modifies this`rows, inst
      ensures inst.AsRow() == Stamp(old(inst.AsRow()), s, now)
      ensures rows == if reply.Applied() then old(rows)[inst.name := inst.AsRow()] else old(rows)
    {
      inst.state := s;
      match s {
        case Idle =>
          if inst.readyAt == None { inst.readyAt := Some(now); }
        case Busy =>
          if inst.claimedAt == None { inst.claimedAt := Some(now); }
        case Draining =>
          if inst.finishedAt == None { inst.finishedAt := Some(now); }
        case Deleted =>
          if inst.destroyedAt == None { inst.destroyedAt := Some(now); }
        case Pending | Provisioning | Booting | Failed =>
      }
      Save(inst, reply);
    }

    /** The live rows of a pool, or of every pool. */
    function Live(poolId: Option<nat>): set<string>
      reads this`rows
    {
      set n | n in rows && rows[n].Live() && (poolId.None? || rows[n].poolId == poolId.value)
    }

    /** Copies of the live rows, once each, in an unspecified order. */
    method LiveInstances(poolId: Option<nat>) returns (live: seq<Instance>)
      ensures Enumerates(Names(live), Live(poolId))
      ensures forall i :: 0 <= i < |live| ==>
                fresh(live[i]) && live[i].name in Live(poolId) && live[i].AsRow() == rows[live[i].name]
      ensures forall i, j :: 0 <= i < j < |live| ==> live[i].name != live[j].name
    {
      var names := Enumerate(Live(poolId));
      live := [];
      for i := 0 to |names|
        invariant |live| == i
        invariant forall k :: 0 <= k < i ==>
          && fresh(live[k]) && live[k].name == names[k]
          && names[k] in Live(poolId) && live[k].AsRow() == rows[names[k]]
      {
        assert names[i] in Live(poolId);
        var inst := new Instance(names[i], rows[names[i]]);
        live := live + [inst];
      }
      assert Names(live) == names;
    }

    /** Removes a pool together with its rows, unless a machine of it is live; in one transaction. */
    method DeletePool(poolId: nat, reply: Reply) returns (busy: bool)
      modifies this`rows, this`pools
      ensures busy <==> old(Live(Some(poolId))) != {}
      ensures busy || !reply.Applied() ==> rows == old(rows) && pools == old(pools)
      ensures !busy && reply.Applied() ==>
                && pools == old(pools) - {poolId}
                && rows == old(rows) - (set n | n in old(rows) && old(rows)[n].poolId == poolId)
    {
      var live := LiveInstances(Some(poolId));
      if |live| > 0 {
        assert Names(live)[0] in Live(Some(poolId));
        return true;
      }
      assert forall n :: n in Live(Some(poolId)) ==> n in Names(live);
      if reply.Applied() {
        rows := rows - (set n | n in rows && rows[n].poolId == poolId);
        pools := pools - {poolId};
      }
      return false;
    }
  }

  function Names(live: seq<Instance>): seq<string> {
    seq(|live|, i requires 0 <= i < |live| => live[i].name)
  }
}
