/** One machine row: its states and stamps (internal/store/models.go, SetState in internal/store/store.go)
    and what it costs (internal/store/cost.go). */
module Instances {
  import opened Types

  datatype State = Pending | Provisioning | Booting | Idle | Busy | Draining | Deleted | Failed

  /** A row of the instance table without its key, the unique machine name. */
  datatype Row = Row(
    poolId: nat,
    state: State,
    providerId: string,
    runnerId: string,
    jobId: string,
    hourly: real,
    billedSeconds: int,
    cost: real,
    createdAt: int,
    activeAt: Option<int>,
    readyAt: Option<int>,
    claimedAt: Option<int>,
    finishedAt: Option<int>,
    destroyedAt: Option<int>)
  {
    predicate Live() { state != Deleted }
  }

  // ---- SetState ----

  function FirstOf(stamp: Option<int>, now: int): Option<int> {
    if stamp.None? then Some(now) else stamp
  }

  /** The row SetState writes: the new state, and the stamp that belongs to it unless it already has one. */
  function Stamp(r: Row, s: State, now: int): Row {
    match s
    case Idle => r.(state := s, readyAt := FirstOf(r.readyAt, now))
    case Busy => r.(state := s, claimedAt := FirstOf(r.claimedAt, now))
    case Draining => r.(state := s, finishedAt := FirstOf(r.finishedAt, now))
    case Deleted => r.(state := s, destroyedAt := FirstOf(r.destroyedAt, now))
    case _ => r.(state := s)
  }

  // ---- the order of states ----

  /** Draining and Failed are side states: a failed destroy or launch parks a row there and a later pass can
      still find the machine at work. */
  predicate Hidden(s: State) { s == Draining || s == Failed }

  function Rank(s: State): nat {
    match s
    case Pending => 0
    case Provisioning => 1
    case Booting => 2
    case Idle => 3
    case Busy => 4
    case Deleted => 5
    case _ => 0
  }

  /** `t` may come after `s`, in one write or many. */
  predicate MayFollow(s: State, t: State) {
    && (s == Deleted ==> t == Deleted)
    && (!Hidden(t) && !Hidden(s) ==> Rank(s) <= Rank(t))
    && (!Hidden(t) && Hidden(s) ==> t == Busy || t == Deleted)
  }

  predicate KeepsFirst(before: Option<int>, after: Option<int>, now: int) {
    if before.Some? then after == before else after.None? || after == Some(now)
  }

  /** How a stored row can change while the clock shows `now`, over any number of writes. */
  predicate Evolves(r: Row, r': Row, now: int) {
    && r'.poolId == r.poolId && r'.jobId == r.jobId && r'.hourly == r.hourly && r'.createdAt == r.createdAt
    && MayFollow(r.state, r'.state)
    && (r.state == Deleted ==> r' == r)
    && (r.providerId != "" ==> r'.providerId == r.providerId)
    && (r.runnerId != "" ==> r'.runnerId == r.runnerId)
    && KeepsFirst(r.activeAt, r'.activeAt, now)
    && KeepsFirst(r.readyAt, r'.readyAt, now)
    && KeepsFirst(r.claimedAt, r'.claimedAt, now)
    && KeepsFirst(r.finishedAt, r'.finishedAt, now)
    && KeepsFirst(r.destroyedAt, r'.destroyedAt, now)
    && SettledOrSame(r, r', now)
  }

  /** The recorded bill changes only by settling, on the way to Deleted. */
  predicate SettledOrSame(r: Row, r': Row, now: int) {
    || (r'.cost == r.cost && r'.billedSeconds == r.billedSeconds)
    || (r'.state == Deleted && r'.cost == Settle(r', now).cost && r'.billedSeconds == Settle(r', now).billedSeconds)
  }

  /** What every stored row satisfies: Deleted and its stamp go together, nothing is stamped in the future,
      and no bill is recorded before the row is closed. */
  predicate RowOk(r: Row, now: int) {
    && (r.state == Deleted <==> r.destroyedAt.Some?)
    && (r.activeAt.Some? ==> r.activeAt.value <= now)
    && (r.destroyedAt.Some? ==> r.destroyedAt.value <= now)
    && (r.activeAt.Some? && r.destroyedAt.Some? ==> r.activeAt.value <= r.destroyedAt.value)
    && (r.state != Deleted ==> r.cost == 0.0 && r.billedSeconds == 0)
    && (r.state == Deleted ==> r.cost == 0.0 || SettledAtClose(r))
  }

  predicate SettledAtClose(r: Row) {
    && r.activeAt.Some? && r.destroyedAt.Some?
    && r.cost == r.hourly * Hours(BilledSpan(r.activeAt.value, r.destroyedAt.value))
  }

  // ---- cost ----

  const MINIMUM_BILLED: int := 60 * SECOND

  /** When a machine started and stopped costing money. */
  function BillableWindow(r: Row, now: int): Option<(int, int)> {
    if r.activeAt.None? then None
    else
      var end := if r.destroyedAt.Some? then r.destroyedAt.value else now;
      if end < r.activeAt.value then None else Some((r.activeAt.value, end))
  }

  function BilledSpan(start: int, end: int): int {
    Max(end - start, MINIMUM_BILLED)
  }

  function BilledDuration(r: Row, now: int): int {
    match BillableWindow(r, now)
    case None => 0
    case Some((start, end)) => BilledSpan(start, end)
  }

  function Hours(d: int): real {
    d as real / HOUR as real
  }

  function EstimatedCost(r: Row, now: int): real {
    if r.cost > 0.0 then r.cost
    else if r.hourly <= 0.0 then 0.0
    else r.hourly * Hours(BilledDuration(r, now))
  }

  /** The in-memory row after Settle: the duration and the cost are recorded when there is a window at all. */
  function Settle(r: Row, now: int): Row {
    var d := BilledDuration(r, now);
    if d <= 0 then r
    else r.(billedSeconds := d / SECOND, cost := r.hourly * Hours(d))
  }

  /** The write that closes a row at the end of destroy. */
  function Closed(r: Row, now: int): Row {
    Stamp(Settle(r, now), Deleted, now)
  }

  // ---- lemmas ----

  lemma EvolvesReflexive(r: Row, now: int)
    ensures Evolves(r, r, now)
  {
  }

  lemma EvolvesTransitive(a: Row, b: Row, c: Row, now: int)
    requires Evolves(a, b, now) && Evolves(b, c, now)
    ensures Evolves(a, c, now)
  {
  }

  /** Closing a live row without settling it, as the reaper does. */
  lemma ClosingEvolves(r: Row, now: int)
    requires RowOk(r, now) && r.Live()
    ensures Evolves(r, Stamp(r, Deleted, now), now) && RowOk(Stamp(r, Deleted, now), now)
  {
  }
}
